/** Stage-out descriptors (constructFileTX, constructRegistrationURL,
    getFileTX) and the output-site layout set-up
    (initializeStageOutSiteDirectoryFactory). */
module StageOut {
  import opened Text
  import opened Entities
  import opened Urls

  /** The directory URL under which jobs leave their outputs on the staging
      site: the prefix of its chosen PUT scratch server and the external
      work directory. */
  function ExecDirURL(cfg: Config, stagingSite: string, destSite: string): (r: Result<string>)
    ensures r.Ok? ==> stagingSite in cfg.sites && destSite in cfg.sites
    ensures stagingSite !in cfg.sites ==> r == Fail(SiteNotFound(stagingSite))
    ensures stagingSite in cfg.sites && destSite !in cfg.sites ==> r == Fail(SiteNotFound(destSite))
    ensures stagingSite in cfg.sites && destSite in cfg.sites
            && ScratchServer(cfg.env, cfg.sites[stagingSite], PutOperations).None?
            ==> r == Fail(NoFileServer(stagingSite, Put))
    ensures r.Ok? ==> var fs := ScratchServer(cfg.env, cfg.sites[stagingSite], PutOperations);
                      fs.Some? && r.value == fs.value.urlPrefix + cfg.env.externalWorkDir(fs.value, stagingSite)
  {
    if stagingSite !in cfg.sites then Fail(SiteNotFound(stagingSite))
    else if destSite !in cfg.sites then Fail(SiteNotFound(destSite))
    else
      match ScratchServer(cfg.env, cfg.sites[stagingSite], PutOperations)
      case None => Fail(NoFileServer(stagingSite, Put))
      case Some(fs) => Ok(fs.urlPrefix + cfg.env.externalWorkDir(fs, stagingSite))
  }

  /** The URL at which a job leaves `lfn` on its staging site (the "exec URL"). */
  function StagingExecURL(cfg: Config, stagingSite: string, destSite: string, lfn: string): (r: Result<string>)
    ensures r.Ok? <==> ExecDirURL(cfg, stagingSite, destSite).Ok?
    ensures r.Ok? ==> EndsWith(r.value, Separator + lfn)
    ensures r.Ok? ==> r.value == ExecDirURL(cfg, stagingSite, destSite).value + Separator + lfn
    ensures r.Fail? ==> r.error == ExecDirURL(cfg, stagingSite, destSite).error
  {
    match ExecDirURL(cfg, stagingSite, destSite)
    case Fail(e) => Fail(e)
    case Ok(dir) =>
      assert (dir + Separator + lfn)[|dir|..] == Separator + lfn;
      Ok(dir + Separator + lfn)
  }

  /** The position of the first URL equal to `execURL` ignoring case, or `|urls|`. */
  function FirstMatch(urls: seq<string>, execURL: string): (k: nat)
    ensures k <= |urls|
    ensures forall i :: 0 <= i < k ==> !EqualsIgnoreCase(execURL, urls[i])
    ensures k < |urls| ==> EqualsIgnoreCase(execURL, urls[k])
  {
    if urls == [] then 0
    else if EqualsIgnoreCase(execURL, urls[0]) then 0
    else 1 + FirstMatch(urls[1..], execURL)
  }

  /** The output-site URLs of the allocated path under each server. */
  function PutURLs(servers: seq<FileServer>, addOn: string): (r: seq<string>)
    ensures |r| == |servers|
    ensures forall i :: 0 <= i < |servers| ==> r[i] == StageoutURL(servers[i], addOn)
  {
    seq(|servers|, i requires 0 <= i < |servers| => StageoutURL(servers[i], addOn))
  }

  function DestsAt(site: string, urls: seq<string>): (r: seq<Endpoint>)
    ensures |r| == |urls|
    ensures forall i :: 0 <= i < |urls| ==> r[i] == Endpoint(site, urls[i])
  {
    seq(|urls|, i requires 0 <= i < |urls| => Endpoint(site, urls[i]))
  }

  /** The source of a stage-out: the exec URL when the transfer runs on the
      submit host, else a `file://` URL into the staging site's work directory. */
  function StageOutSource(cfg: Config, pf: PFile, stagingSite: string, path: Option<string>,
                          localTransfer: bool, execURL: string): string
  {
    if localTransfer then execURL
    else "file://" + cfg.env.internalWorkDir(stagingSite, path) + Separator + pf.lfn
  }

  /** The walk over the PUT URLs from the `j`-th on, with the destinations
      gathered so far: one destination per URL, in order, unless a URL is
      the exec URL (ignoring case), in which case the walk stops there with
      the exec URL as its last destination. The flag says whether it stopped. */
  function WalkFrom(urls: seq<string>, execURL: string, destSite: string, stagingSite: string, j: nat,
                    dests: seq<Endpoint>): (r: (seq<Endpoint>, bool))
    requires j <= |urls|
    ensures dests != [] || j < |urls| ==> r.0 != []
    ensures r.1 ==> r.0 != [] && r.0[|r.0| - 1] == Endpoint(stagingSite, execURL)
    decreases |urls| - j
  {
    if j == |urls| then (dests, false)
    else if EqualsIgnoreCase(execURL, urls[j]) then (dests + [Endpoint(stagingSite, execURL)], true)
    else WalkFrom(urls, execURL, destSite, stagingSite, j + 1, dests + [Endpoint(destSite, urls[j])])
  }

  /** The walk over the PUT servers of the output site's storage directory,
      starting from a descriptor that has its source: the walk over their
      URLs; when it stopped at the exec URL, that URL is also the
      registration URL and the transfer is not to be done; after a full
      walk the registration URL comes from a GET server. */
  function PutServerWalk(env: Env, factory: Factory, storage: Directory, destSite: string,
                         stagingSite: string, execURL: string, base: FileTransfer): (r: Result<FileTransfer>)
    requires ServersFor(storage, PutOperations) != []
    ensures r.Ok? ==> && r.value.dests != [] && r.value.registrationURL.Some?
                      && r.value == base.(dests := r.value.dests, registrationURL := r.value.registrationURL,
                                          transferFlag := r.value.transferFlag)
    ensures r.Fail? ==> r.error == AllocationFailed(base.lfn) || r.error == NoGetServers(destSite)
  {
    match env.createFile(factory, base.lfn)
    case None => Fail(AllocationFailed(base.lfn))
    case Some(addOn) =>
      var walk := WalkFrom(PutURLs(ServersFor(storage, PutOperations), addOn), execURL, destSite, stagingSite, 0, []);
      if walk.1 then
        Ok(base.(dests := walk.0, registrationURL := Some(execURL), transferFlag := Never))
      else
        match RegistrationURL(env, factory, storage, destSite, base.lfn)
        case Fail(e) => Fail(e)
        case Ok(u) => Ok(base.(dests := walk.0, registrationURL := Some(u)))
  }

  /** The walk, told by the first PUT URL that is the exec URL: the
      destinations before it and the exec URL when there is one, every
      destination otherwise. */
  lemma {:induction false} WalkFromFirstMatch(urls: seq<string>, execURL: string, destSite: string,
                                              stagingSite: string, j: nat)
    requires j <= |urls| && NoMatchBefore(urls, execURL, j)
    ensures var k := FirstMatch(urls, execURL);
            WalkFrom(urls, execURL, destSite, stagingSite, j, DestsAt(destSite, urls[..j]))
            == if k < |urls| then (DestsAt(destSite, urls[..k]) + [Endpoint(stagingSite, execURL)], true)
               else (DestsAt(destSite, urls), false)
    decreases |urls| - j
  {
    if j == |urls| {
      FirstMatchAt(urls, execURL, j);
      assert urls[..j] == urls;
    } else if EqualsIgnoreCase(execURL, urls[j]) {
      FirstMatchAt(urls, execURL, j);
    } else {
      NoMatchBeforeExtend(urls, execURL, j);
      DestsAtExtend(destSite, urls, j);
      WalkFromFirstMatch(urls, execURL, destSite, stagingSite, j + 1);
    }
  }

  /** The descriptor constructFileTX returns once the exec URL is known:
      none when the file is transient in both senses; an in-place
      descriptor when only its transfer is transient; otherwise the walk
      over the output site's PUT servers. */
  function DescriptorFromExec(cfg: Config, factory: Factory, pf: PFile, stagingSite: string,
                              destSite: string, jobName: string, path: Option<string>,
                              localTransfer: bool, execURL: string): (r: Result<Option<FileTransfer>>)
    requires destSite in cfg.sites
    ensures r == Ok(None) <==> pf.transientReg && pf.transientTransfer
    ensures r.Ok? && r.value.Some? ==>
              && ValidTransfer(r.value.value)
              && r.value.value.lfn == pf.lfn && r.value.value.job == jobName
              && |r.value.value.sources| == 1 && r.value.value.sources[0].site == stagingSite
              && r.value.value.registrationURL.Some?
    ensures r.Ok? && r.value.Some? ==>
              r.value.value.sources[0].url
              == if pf.transientTransfer || localTransfer then execURL
                 else "file://" + cfg.env.internalWorkDir(stagingSite, path) + Separator + pf.lfn
    ensures !pf.transientTransfer && cfg.sites[destSite].storage.None? ==> r == Fail(NoStorageDirectory(destSite))
    ensures !pf.transientTransfer && cfg.sites[destSite].storage.Some?
            && ServersFor(cfg.sites[destSite].storage.value, PutOperations) == []
            ==> r == Fail(NoPutServers(destSite))
  {
    if pf.transientReg && pf.transientTransfer then Ok(None)
    else if pf.transientTransfer then
      Ok(Some(FileTransfer(pf.lfn, jobName, [Endpoint(stagingSite, execURL)],
                           [Endpoint(stagingSite, execURL)], Some(execURL), pf.size, Data,
                           pf.transferFlag, pf.transientTransfer, pf.transientReg, pf.optional)))
    else
      match cfg.sites[destSite].storage
      case None => Fail(NoStorageDirectory(destSite))
      case Some(storage) =>
        if ServersFor(storage, PutOperations) == [] then Fail(NoPutServers(destSite))
        else
          var base := FileTransfer(pf.lfn, jobName,
                                   [Endpoint(stagingSite, StageOutSource(cfg, pf, stagingSite, path, localTransfer, execURL))],
                                   [], None, pf.size, Data,
                                   pf.transferFlag, pf.transientTransfer, pf.transientReg, pf.optional);
          match PutServerWalk(cfg.env, factory, storage, destSite, stagingSite, execURL, base)
          case Fail(e) => Fail(e)
          case Ok(ft) => Ok(Some(ft))
  }

  /** The loop of constructFileTX over the PUT servers, with its early exit. */
  method WalkPutServers(env: Env, factory: Factory, storage: Directory, destSite: string,
                        stagingSite: string, execURL: string, base: FileTransfer)
    returns (r: Result<FileTransfer>)
    requires ServersFor(storage, PutOperations) != []
    ensures r == PutServerWalk(env, factory, storage, destSite, stagingSite, execURL, base)
  {
    var puts := ServersFor(storage, PutOperations);
    ghost var addOn := if env.createFile(factory, base.lfn).Some? then env.createFile(factory, base.lfn).value else "";
    ghost var urls := PutURLs(puts, addOn);
    var dests := [];
    var i := 0;
    while i < |puts|
      invariant 0 <= i <= |puts|
      invariant i > 0 ==> env.createFile(factory, base.lfn).Some?
      invariant WalkFrom(urls, execURL, destSite, stagingSite, i, dests)
                == WalkFrom(urls, execURL, destSite, stagingSite, 0, [])
    {
      var destURL := URLOnStageoutSite(env, factory, puts[i], base.lfn);
      if destURL.Fail? {
        assert i == 0 && env.createFile(factory, base.lfn).None?;
        return Fail(destURL.error);
      }
      assert addOn == env.createFile(factory, base.lfn).value;
      assert destURL.value == urls[i];
      if EqualsIgnoreCase(execURL, destURL.value) {
        return Ok(base.(dests := dests + [Endpoint(stagingSite, execURL)],
                        registrationURL := Some(execURL), transferFlag := Never));
      }
      dests := dests + [Endpoint(destSite, destURL.value)];
      i := i + 1;
    }
    assert env.createFile(factory, base.lfn) == Some(addOn);
    var reg := RegistrationURL(env, factory, storage, destSite, base.lfn);
    if reg.Fail? {
      return Fail(reg.error);
    }
    r := Ok(base.(dests := dests, registrationURL := Some(reg.value)));
  }

  /** No URL before position `i` is the exec URL. */
  predicate NoMatchBefore(urls: seq<string>, execURL: string, i: nat)
    requires i <= |urls|
  {
    forall j :: 0 <= j < i ==> !EqualsIgnoreCase(execURL, urls[j])
  }

  lemma NoMatchBeforeExtend(urls: seq<string>, execURL: string, i: nat)
    requires i < |urls| && NoMatchBefore(urls, execURL, i) && !EqualsIgnoreCase(execURL, urls[i])
    ensures NoMatchBefore(urls, execURL, i + 1)
  {
  }

  lemma FirstMatchAt(urls: seq<string>, execURL: string, i: nat)
    requires i <= |urls|
    requires NoMatchBefore(urls, execURL, i)
    requires i < |urls| ==> EqualsIgnoreCase(execURL, urls[i])
    ensures FirstMatch(urls, execURL) == i
  {
  }

  lemma DestsAtExtend(site: string, urls: seq<string>, i: nat)
    requires i < |urls|
    ensures DestsAt(site, urls[..i + 1]) == DestsAt(site, urls[..i]) + [Endpoint(site, urls[i])]
  {
  }

  /** constructFileTX once the exec URL has been recorded; a method of its
      own, apart from `DescriptorFromExec`, so that the loop's proof stays small. */
  method BuildStageOutDescriptor(cfg: Config, factory: Factory, pf: PFile, stagingSite: string,
                                 destSite: string, jobName: string, path: Option<string>,
                                 localTransfer: bool, execURL: string)
    returns (r: Result<Option<FileTransfer>>)
    requires destSite in cfg.sites
    ensures r == DescriptorFromExec(cfg, factory, pf, stagingSite, destSite, jobName, path, localTransfer, execURL)
  {
    if pf.transientReg && pf.transientTransfer {
      return Ok(None);
    }
    if pf.transientTransfer {
      var ft := FileTransfer(pf.lfn, jobName, [Endpoint(stagingSite, execURL)],
                             [Endpoint(stagingSite, execURL)], Some(execURL), pf.size, Data,
                             pf.transferFlag, pf.transientTransfer, pf.transientReg, pf.optional);
      return Ok(Some(ft));
    }
    var storage := cfg.sites[destSite].storage;
    if storage.None? {
      return Fail(NoStorageDirectory(destSite));
    }
    if ServersFor(storage.value, PutOperations) == [] {
      return Fail(NoPutServers(destSite));
    }
    var sourceURL := if localTransfer then execURL
                     else "file://" + cfg.env.internalWorkDir(stagingSite, path) + Separator + pf.lfn;
    var base := FileTransfer(pf.lfn, jobName, [Endpoint(stagingSite, sourceURL)], [], None, pf.size, Data,
                             pf.transferFlag, pf.transientTransfer, pf.transientReg, pf.optional);
    var walked := WalkPutServers(cfg.env, factory, storage.value, destSite, stagingSite, execURL, base);
    if walked.Fail? {
      return Fail(walked.error);
    }
    r := Ok(Some(walked.value));
  }

  /** A file whose transfer alone is transient stays on the staging site:
      source, destination and registration URL are all the exec URL. */
  lemma TransientTransferStaysOnStagingSite(cfg: Config, factory: Factory, pf: PFile, stagingSite: string,
                                            destSite: string, jobName: string, path: Option<string>,
                                            localTransfer: bool, execURL: string)
    requires destSite in cfg.sites
    requires pf.transientTransfer && !pf.transientReg
    ensures var r := DescriptorFromExec(cfg, factory, pf, stagingSite, destSite, jobName, path, localTransfer, execURL);
            && r.Ok? && r.value.Some?
            && r.value.value.sources == [Endpoint(stagingSite, execURL)]
            && r.value.value.dests == [Endpoint(stagingSite, execURL)]
            && r.value.value.registrationURL == Some(execURL)
  {
  }

  /** When no PUT server's URL is the exec URL, every PUT server contributes
      one destination, in order, and the registration URL comes from the
      first GET server. */
  lemma FanOutToEveryPutServer(cfg: Config, factory: Factory, pf: PFile, stagingSite: string,
                               destSite: string, jobName: string, path: Option<string>,
                               localTransfer: bool, execURL: string, storage: Directory, addOn: string)
    requires destSite in cfg.sites && cfg.sites[destSite].storage == Some(storage)
    requires !pf.transientTransfer
    requires ServersFor(storage, PutOperations) != [] && ServersFor(storage, GetOperations) != []
    requires cfg.env.createFile(factory, pf.lfn) == Some(addOn)
    requires forall s :: s in ServersFor(storage, PutOperations) ==> !EqualsIgnoreCase(execURL, StageoutURL(s, addOn))
    ensures var r := DescriptorFromExec(cfg, factory, pf, stagingSite, destSite, jobName, path, localTransfer, execURL);
            var puts := ServersFor(storage, PutOperations);
            && r.Ok? && r.value.Some?
            && |r.value.value.dests| == |puts|
            && (forall i :: 0 <= i < |puts| ==> r.value.value.dests[i] == Endpoint(destSite, StageoutURL(puts[i], addOn)))
            && r.value.value.registrationURL == Some(StageoutURL(ServersFor(storage, GetOperations)[0], addOn))
            && r.value.value.transferFlag == pf.transferFlag
  {
    var puts := ServersFor(storage, PutOperations);
    var urls := PutURLs(puts, addOn);
    forall j | 0 <= j < |urls|
      ensures !EqualsIgnoreCase(execURL, urls[j])
    {
      assert puts[j] in puts;
    }
    assert FirstMatch(urls, execURL) == |urls|;
    assert urls[..0] == [];
    WalkFromFirstMatch(urls, execURL, destSite, stagingSite, 0);
  }

  /** On the first PUT server whose URL is the exec URL (ignoring case) the
      walk stops: the destinations seen so far are kept, the exec URL is
      added as the last destination and the registration URL, and the
      transfer is marked as not to be done. */
  lemma FanOutStopsAtFirstMatch(cfg: Config, factory: Factory, pf: PFile, stagingSite: string,
                                destSite: string, jobName: string, path: Option<string>,
                                localTransfer: bool, execURL: string, storage: Directory, addOn: string, k: nat)
    requires destSite in cfg.sites && cfg.sites[destSite].storage == Some(storage)
    requires !pf.transientTransfer
    requires cfg.env.createFile(factory, pf.lfn) == Some(addOn)
    requires k < |ServersFor(storage, PutOperations)|
    requires EqualsIgnoreCase(execURL, StageoutURL(ServersFor(storage, PutOperations)[k], addOn))
    requires forall j :: 0 <= j < k ==> !EqualsIgnoreCase(execURL, StageoutURL(ServersFor(storage, PutOperations)[j], addOn))
    ensures var r := DescriptorFromExec(cfg, factory, pf, stagingSite, destSite, jobName, path, localTransfer, execURL);
            var puts := ServersFor(storage, PutOperations);
            && r.Ok? && r.value.Some?
            && |r.value.value.dests| == k + 1
            && (forall i :: 0 <= i < k ==> r.value.value.dests[i] == Endpoint(destSite, StageoutURL(puts[i], addOn)))
            && r.value.value.dests[k] == Endpoint(stagingSite, execURL)
            && r.value.value.registrationURL == Some(execURL)
            && r.value.value.transferFlag == Never
  {
    var urls := PutURLs(ServersFor(storage, PutOperations), addOn);
    assert FirstMatch(urls, execURL) == k;
    assert urls[..0] == [];
    WalkFromFirstMatch(urls, execURL, destSite, stagingSite, 0);
  }

  /** The configuration errors of constructFileTX past the exec URL. */
  lemma StageOutConfigurationErrors(cfg: Config, factory: Factory, pf: PFile, stagingSite: string,
                                    destSite: string, jobName: string, path: Option<string>,
                                    localTransfer: bool, execURL: string)
    requires destSite in cfg.sites && !pf.transientTransfer
    ensures var r := DescriptorFromExec(cfg, factory, pf, stagingSite, destSite, jobName, path, localTransfer, execURL);
            && (cfg.sites[destSite].storage.None? ==> r == Fail(NoStorageDirectory(destSite)))
            && (cfg.sites[destSite].storage.Some? && ServersFor(cfg.sites[destSite].storage.value, PutOperations) == []
                ==> r == Fail(NoPutServers(destSite)))
            && ((cfg.sites[destSite].storage.Some? && ServersFor(cfg.sites[destSite].storage.value, GetOperations) == []
                 && r.Ok?) ==> r.value.Some? && r.value.value.transferFlag == Never)
  {
  }

  // ------------------------------------------------------------- getFileTX

  /** The stage-out batch being built, and the transient catalog. */
  datatype StageOutAcc = StageOutAcc(batch: seq<FileTransfer>, rc: seq<Placement>)

  predicate BothTransient(pf: PFile) {
    pf.transientReg && pf.transientTransfer
  }

  /** One output file of getFileTX: its exec URL is recorded in the
      transient catalog, then its descriptor (if any) joins the batch. */
  function FileTXStep(cfg: Config, factory: Factory, job: Job, destPool: string, localTransfer: bool,
                      pf: PFile, acc: StageOutAcc): (r: Run<StageOutAcc>)
    ensures r.failure.None? ==>
              && ExecDirURL(cfg, job.stagingSite, destPool).Ok?
              && r.state.rc == acc.rc + [ExecPlacement(job, ExecDirURL(cfg, job.stagingSite, destPool).value, pf)]
  {
    match StagingExecURL(cfg, job.stagingSite, destPool, pf.lfn)
    case Fail(e) => Run(Some(e), acc)
    case Ok(execURL) =>
      var acc1 := acc.(rc := acc.rc + [Placement(pf.lfn, execURL, job.stagingSite)]);
      match DescriptorFromExec(cfg, factory, pf, job.stagingSite, destPool, job.logicalName,
                               job.remoteInitialDir, localTransfer, execURL)
      case Fail(e) => Run(Some(e), acc1)
      case Ok(None) => Run(None, acc1)
      case Ok(Some(ft)) => Run(None, acc1.(batch := acc1.batch + [ft]))
  }

  /** getFileTX from the `i`-th output file on; the first failure aborts,
      keeping what was recorded before it. */
  function FileTXFrom(cfg: Config, factory: Factory, job: Job, destPool: string, localTransfer: bool,
                      i: nat, acc: StageOutAcc): (r: Run<StageOutAcc>)
    requires i <= |job.outputFiles|
    ensures r.failure.None? ==> |r.state.rc| == |acc.rc| + |job.outputFiles| - i
    decreases |job.outputFiles| - i
  {
    if i == |job.outputFiles| then Run(None, acc)
    else
      var step := FileTXStep(cfg, factory, job, destPool, localTransfer, job.outputFiles[i], acc);
      if step.failure.Some? then step
      else FileTXFrom(cfg, factory, job, destPool, localTransfer, i + 1, step.state)
  }

  /** One pass of getFileTX's loop: the exec URL, its catalog entry, then
      the descriptor built from it; a method of its own, apart from
      `FileTXStep`, so that the loop's proof stays small. */
  method StageOutOutput(cfg: Config, factory: Factory, job: Job, destPool: string, localTransfer: bool,
                        pf: PFile, acc: StageOutAcc) returns (r: Run<StageOutAcc>)
    ensures r == FileTXStep(cfg, factory, job, destPool, localTransfer, pf, acc)
  {
    var execURL := StagingExecURL(cfg, job.stagingSite, destPool, pf.lfn);
    if execURL.Fail? {
      return Run(Some(execURL.error), acc);
    }
    var acc1 := acc.(rc := acc.rc + [Placement(pf.lfn, execURL.value, job.stagingSite)]);
    var ft := BuildStageOutDescriptor(cfg, factory, pf, job.stagingSite, destPool, job.logicalName,
                                      job.remoteInitialDir, localTransfer, execURL.value);
    if ft.Fail? {
      return Run(Some(ft.error), acc1);
    }
    if ft.value.None? {
      return Run(None, acc1);
    }
    r := Run(None, acc1.(batch := acc1.batch + [ft.value.value]));
  }

  /** The logical names of the outputs that get a stage-out descriptor, in
      order: all but those transient in both senses. */
  function StagedOutLfns(files: seq<PFile>): seq<string>
  {
    if files == [] then []
    else (if BothTransient(files[0]) then [] else [files[0].lfn]) + StagedOutLfns(files[1..])
  }

  function Lfns(batch: seq<FileTransfer>): (r: seq<string>)
    ensures |r| == |batch|
  {
    seq(|batch|, k requires 0 <= k < |batch| => batch[k].lfn)
  }

  /** The exec URL of an output under the staging site's directory URL
      `dir`, as a catalog entry on the staging site. */
  function ExecPlacement(job: Job, dir: string, pf: PFile): Placement {
    Placement(pf.lfn, dir + Separator + pf.lfn, job.stagingSite)
  }

  /** The exec URLs of the outputs from the `i`-th on. */
  function ExecPlacements(job: Job, dir: string, i: nat): (r: seq<Placement>)
    requires i <= |job.outputFiles|
    ensures |r| == |job.outputFiles| - i
    ensures forall k :: 0 <= k < |r| ==> r[k] == ExecPlacement(job, dir, job.outputFiles[i + k])
    decreases |job.outputFiles| - i
  {
    if i == |job.outputFiles| then []
    else [ExecPlacement(job, dir, job.outputFiles[i])] + ExecPlacements(job, dir, i + 1)
  }

  /** A run that succeeds from output `i` succeeds on that output and goes on from there. */
  lemma FileTXFromStep(cfg: Config, factory: Factory, job: Job, destPool: string, localTransfer: bool,
                       i: nat, acc: StageOutAcc)
    requires i < |job.outputFiles|
    requires FileTXFrom(cfg, factory, job, destPool, localTransfer, i, acc).failure.None?
    ensures var step := FileTXStep(cfg, factory, job, destPool, localTransfer, job.outputFiles[i], acc);
            && step.failure.None?
            && FileTXFrom(cfg, factory, job, destPool, localTransfer, i, acc)
               == FileTXFrom(cfg, factory, job, destPool, localTransfer, i + 1, step.state)
  {
  }

  /** A successful getFileTX records the exec URL of every output file on
      the staging site, one entry per output, in order. */
  lemma {:induction false} FileTXRecordsEveryOutput(cfg: Config, factory: Factory, job: Job, destPool: string,
                                                    localTransfer: bool, i: nat, acc: StageOutAcc)
    requires i <= |job.outputFiles|
    requires FileTXFrom(cfg, factory, job, destPool, localTransfer, i, acc).failure.None?
    ensures i < |job.outputFiles| ==> ExecDirURL(cfg, job.stagingSite, destPool).Ok?
    ensures ExecDirURL(cfg, job.stagingSite, destPool).Ok? ==>
              FileTXFrom(cfg, factory, job, destPool, localTransfer, i, acc).state.rc
              == acc.rc + ExecPlacements(job, ExecDirURL(cfg, job.stagingSite, destPool).value, i)
    decreases |job.outputFiles| - i
  {
    if i < |job.outputFiles| {
      var step := FileTXStep(cfg, factory, job, destPool, localTransfer, job.outputFiles[i], acc);
      FileTXFromStep(cfg, factory, job, destPool, localTransfer, i, acc);
      FileTXRecordsEveryOutput(cfg, factory, job, destPool, localTransfer, i + 1, step.state);
      var dir := ExecDirURL(cfg, job.stagingSite, destPool).value;
      var p := ExecPlacement(job, dir, job.outputFiles[i]);
      var rest := ExecPlacements(job, dir, i + 1);
      var fin := FileTXFrom(cfg, factory, job, destPool, localTransfer, i + 1, step.state).state.rc;
      assert step.state.rc == acc.rc + [p];
      assert fin == (acc.rc + [p]) + rest;
      assert ExecPlacements(job, dir, i) == [p] + rest;
      assert (acc.rc + [p]) + rest == acc.rc + ([p] + rest);
    }
  }

  /** How one successful output changes the batch: kept as a prefix, and
      extended by the output's descriptor unless it is transient in both senses. */
  lemma FileTXStepBatch(cfg: Config, factory: Factory, job: Job, destPool: string, localTransfer: bool,
                        pf: PFile, acc: StageOutAcc)
    requires FileTXStep(cfg, factory, job, destPool, localTransfer, pf, acc).failure.None?
    ensures var b := FileTXStep(cfg, factory, job, destPool, localTransfer, pf, acc).state.batch;
            && |b| == |acc.batch| + (if BothTransient(pf) then 0 else 1)
            && b[..|acc.batch|] == acc.batch
            && (!BothTransient(pf) ==> b[|acc.batch|].lfn == pf.lfn)
  {
  }

  /** A successful getFileTX keeps the batch it was given and only appends to it. */
  lemma {:induction false} FileTXBatchExtends(cfg: Config, factory: Factory, job: Job, destPool: string,
                                              localTransfer: bool, i: nat, acc: StageOutAcc)
    requires i <= |job.outputFiles|
    requires FileTXFrom(cfg, factory, job, destPool, localTransfer, i, acc).failure.None?
    ensures var s := FileTXFrom(cfg, factory, job, destPool, localTransfer, i, acc).state;
            |acc.batch| <= |s.batch| && s.batch[..|acc.batch|] == acc.batch
    decreases |job.outputFiles| - i
  {
    if i < |job.outputFiles| {
      var step := FileTXStep(cfg, factory, job, destPool, localTransfer, job.outputFiles[i], acc);
      FileTXStepBatch(cfg, factory, job, destPool, localTransfer, job.outputFiles[i], acc);
      FileTXBatchExtends(cfg, factory, job, destPool, localTransfer, i + 1, step.state);
      var s := FileTXFrom(cfg, factory, job, destPool, localTransfer, i + 1, step.state).state;
      assert s.batch[..|acc.batch|] == s.batch[..|step.state.batch|][..|acc.batch|];
    }
  }

  /** The descriptors a successful getFileTX adds are one per output file
      that is not transient in both senses, in the order of the outputs;
      files transient in both senses never reach the batch. */
  lemma {:induction false} FileTXBatchFollowsOutputs(cfg: Config, factory: Factory, job: Job, destPool: string,
                                                     localTransfer: bool, i: nat, acc: StageOutAcc)
    requires i <= |job.outputFiles|
    requires FileTXFrom(cfg, factory, job, destPool, localTransfer, i, acc).failure.None?
    ensures Lfns(FileTXFrom(cfg, factory, job, destPool, localTransfer, i, acc).state.batch)
            == Lfns(acc.batch) + StagedOutLfns(job.outputFiles[i..])
    decreases |job.outputFiles| - i
  {
    if i < |job.outputFiles| {
      var pf := job.outputFiles[i];
      var step := FileTXStep(cfg, factory, job, destPool, localTransfer, pf, acc);
      FileTXFromStep(cfg, factory, job, destPool, localTransfer, i, acc);
      FileTXStepBatch(cfg, factory, job, destPool, localTransfer, pf, acc);
      FileTXBatchFollowsOutputs(cfg, factory, job, destPool, localTransfer, i + 1, step.state);
      var added := if BothTransient(pf) then [] else [pf.lfn];
      var rest := StagedOutLfns(job.outputFiles[i + 1..]);
      var fin := FileTXFrom(cfg, factory, job, destPool, localTransfer, i + 1, step.state).state.batch;
      assert Lfns(step.state.batch) == Lfns(acc.batch) + added;
      assert Lfns(fin) == (Lfns(acc.batch) + added) + rest;
      assert job.outputFiles[i..][1..] == job.outputFiles[i + 1..];
      assert StagedOutLfns(job.outputFiles[i..]) == added + rest;
      assert (Lfns(acc.batch) + added) + rest == Lfns(acc.batch) + (added + rest);
    }
  }

  // ----------------------------------------------- layout initialisation

  /** The output files that will be staged out: all outputs of all jobs
      whose transfer is not transient, job by job. */
  function StageOutFiles(jobs: seq<Job>): seq<PFile>
  {
    if jobs == [] then []
    else StageOutFiles(jobs[..|jobs| - 1]) + NonTransient(jobs[|jobs| - 1].outputFiles)
  }

  function NonTransient(files: seq<PFile>): seq<PFile>
  {
    if files == [] then []
    else NonTransient(files[..|files| - 1])
         + (if files[|files| - 1].transientTransfer then [] else [files[|files| - 1]])
  }

  lemma {:induction false} NonTransientMembership(files: seq<PFile>)
    ensures forall pf :: pf in NonTransient(files) <==> pf in files && !pf.transientTransfer
  {
    if files != [] {
      NonTransientMembership(files[..|files| - 1]);
      assert files == files[..|files| - 1] + [files[|files| - 1]];
    }
  }

  /** A file is counted exactly when some job outputs it and its transfer is not transient. */
  lemma {:induction false} StageOutFilesMembership(jobs: seq<Job>)
    ensures forall pf :: pf in StageOutFiles(jobs) <==>
              exists j :: 0 <= j < |jobs| && pf in jobs[j].outputFiles && !pf.transientTransfer
  {
    if jobs != [] {
      var init := jobs[..|jobs| - 1];
      StageOutFilesMembership(init);
      NonTransientMembership(jobs[|jobs| - 1].outputFiles);
      forall pf | (exists j :: 0 <= j < |jobs| && pf in jobs[j].outputFiles && !pf.transientTransfer)
        ensures pf in StageOutFiles(jobs)
      {
        var j :| 0 <= j < |jobs| && pf in jobs[j].outputFiles && !pf.transientTransfer;
        if j < |jobs| - 1 {
          assert init[j] == jobs[j];
        }
      }
      forall pf | pf in StageOutFiles(jobs)
        ensures exists j :: 0 <= j < |jobs| && pf in jobs[j].outputFiles && !pf.transientTransfer
      {
        if pf in StageOutFiles(init) {
          var j :| 0 <= j < |init| && pf in init[j].outputFiles && !pf.transientTransfer;
          assert jobs[j] == init[j];
        } else {
          assert pf in jobs[|jobs| - 1].outputFiles;
        }
      }
    }
  }

  /** The pre-pass counting the files to be staged out, which sizes the hashed layout. */
  method CountStageOutFiles(jobs: seq<Job>) returns (total: nat)
    ensures total == |StageOutFiles(jobs)|
  {
    total := 0;
    var i := 0;
    while i < |jobs|
      invariant 0 <= i <= |jobs|
      invariant total == |StageOutFiles(jobs[..i])|
    {
      var files := jobs[i].outputFiles;
      var j := 0;
      while j < |files|
        invariant 0 <= j <= |files|
        invariant total == |StageOutFiles(jobs[..i])| + |NonTransient(files[..j])|
      {
        assert files[..j + 1][..j] == files[..j];
        if !files[j].transientTransfer {
          total := total + 1;
        }
        j := j + 1;
      }
      assert files[..j] == files;
      assert jobs[..i + 1][..i] == jobs[..i];
      i := i + 1;
    }
    assert jobs[..i] == jobs;
  }

  /** Sets up the output site's storage directory and layout: nothing when no
      output site is configured; an error when the site or its storage
      directory is missing; otherwise a hashed layout sized to the number of
      files staged out, or a flat one. */
  method InitializeStageOutSiteDirectoryFactory(sites: map<string, Site>, outputSite: Option<string>,
                                                deepStorage: bool, addOn: string, workflow: seq<Job>)
    returns (r: Result<Option<StageOutArea>>)
    ensures !IsStageOut(outputSite) ==> r == Ok(None)
    ensures IsStageOut(outputSite) && outputSite.value !in sites ==> r == Fail(SiteNotFound(outputSite.value))
    ensures IsStageOut(outputSite) && outputSite.value in sites && sites[outputSite.value].storage.None?
            ==> r == Fail(NoStorageDirectory(outputSite.value))
    ensures IsStageOut(outputSite) && r.Ok? ==>
              && outputSite.value in sites && sites[outputSite.value].storage.Some?
              && r.value == Some(StageOutArea(sites[outputSite.value].storage.value,
                                              if deepStorage then Hashed(addOn, |StageOutFiles(workflow)|)
                                              else Flat(addOn)))
  {
    if !IsStageOut(outputSite) {
      return Ok(None);
    }
    var site := outputSite.value;
    if site !in sites {
      return Fail(SiteNotFound(site));
    }
    var directory := sites[site].storage;
    if directory.None? {
      return Fail(NoStorageDirectory(site));
    }
    var factory;
    if deepStorage {
      var totalFiles := CountStageOutFiles(workflow);
      factory := Hashed(addOn, totalFiles);
    } else {
      factory := Flat(addOn);
    }
    r := Ok(Some(StageOutArea(directory.value, factory)));
  }
}
