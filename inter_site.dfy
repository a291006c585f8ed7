/** Inter-site transfers (getInterpoolFileTX) and the split of a job's
    inputs between its parents and the replica catalog (getOutputFiles and
    the search-file filter of processParents). */
module InterSite {
  import opened Text
  import opened Entities
  import opened Urls

  /** Where a job's staging site receives its parents' outputs: the
      third-party URI of its shared scratch, the URI the transfer writes to,
      and whether the transfer runs on the submit host. */
  datatype InterSiteTarget = InterSiteTarget(thirdPartyURI: string, destURI: string, local: bool)

  function InterSiteDestination(cfg: Config, job: Job): (r: Result<InterSiteTarget>)
    ensures job.stagingSite !in cfg.sites ==> r == Fail(SiteNotFound(job.stagingSite))
    ensures job.stagingSite in cfg.sites && ScratchServer(cfg.env, cfg.sites[job.stagingSite], PutOperations).None?
            ==> r == Fail(NoFileServer(job.stagingSite, Put))
    ensures r.Ok? ==> r.value.local == RunTransferOnLocalSite(cfg.adv, job.stagingSite, Some(r.value.thirdPartyURI), InterPoolJob)
    ensures r.Ok? && r.value.local ==> r.value.destURI == r.value.thirdPartyURI
    ensures r.Ok? && !r.value.local ==> StartsWith(r.value.destURI, "file://")
    ensures r.Ok? ==> var fs := ScratchServer(cfg.env, cfg.sites[job.stagingSite], PutOperations);
                      && job.stagingSite in cfg.sites && fs.Some?
                      && r.value.thirdPartyURI == fs.value.urlPrefix + cfg.env.externalWorkDir(fs.value, job.stagingSite)
    ensures r.Ok? && !r.value.local ==>
              r.value.destURI == "file://" + cfg.env.internalWorkDir(job.stagingSite, job.remoteInitialDir)
  {
    if job.stagingSite !in cfg.sites then Fail(SiteNotFound(job.stagingSite))
    else
      match ScratchServer(cfg.env, cfg.sites[job.stagingSite], PutOperations)
      case None => Fail(NoFileServer(job.stagingSite, Put))
      case Some(fs) =>
        var thirdParty := fs.urlPrefix + cfg.env.externalWorkDir(fs, job.stagingSite);
        var local := RunTransferOnLocalSite(cfg.adv, job.stagingSite, Some(thirdParty), InterPoolJob);
        var dest := if local then thirdParty
                    else "file://" + cfg.env.internalWorkDir(job.stagingSite, job.remoteInitialDir);
        Ok(InterSiteTarget(thirdParty, dest, local))
  }

  /** The URL of `lfn` in the parent's work directory, as served by `server`. */
  function ParentSourceURL(env: Env, server: FileServer, parent: Job, lfn: string): string {
    server.urlPrefix + env.externalWorkDir(server, parent.siteHandle) + Separator + lfn
  }

  /** The sources of an inter-site transfer: one per GET server of the
      parent's scratch directory, except those equal (ignoring case) to the
      third-party destination URL. */
  function InterSiteSources(env: Env, parent: Job, servers: seq<FileServer>, lfn: string,
                            thirdPartyDestURL: string): (r: seq<Endpoint>)
    ensures |r| <= |servers|
    ensures forall e :: e in r ==> e.site == parent.stagingSite && !EqualsIgnoreCase(e.url, thirdPartyDestURL)
    ensures forall s :: s in servers && !EqualsIgnoreCase(ParentSourceURL(env, s, parent, lfn), thirdPartyDestURL)
              ==> Endpoint(parent.stagingSite, ParentSourceURL(env, s, parent, lfn)) in r
    ensures forall e :: e in r ==> exists s :: s in servers && e.url == ParentSourceURL(env, s, parent, lfn)
  {
    if servers == [] then []
    else
      var init := servers[..|servers| - 1];
      var url := ParentSourceURL(env, servers[|servers| - 1], parent, lfn);
      assert servers == init + [servers[|servers| - 1]];
      InterSiteSources(env, parent, init, lfn, thirdPartyDestURL)
      + (if EqualsIgnoreCase(url, thirdPartyDestURL) then [] else [Endpoint(parent.stagingSite, url)])
  }

  /** The loop of getInterpoolFileTX over the parent's GET servers. */
  method CollectInterSiteSources(env: Env, parent: Job, servers: seq<FileServer>, lfn: string,
                                 thirdPartyDestURL: string) returns (sources: seq<Endpoint>)
    ensures sources == InterSiteSources(env, parent, servers, lfn, thirdPartyDestURL)
  {
    sources := [];
    var i := 0;
    while i < |servers|
      invariant 0 <= i <= |servers|
      invariant sources == InterSiteSources(env, parent, servers[..i], lfn, thirdPartyDestURL)
    {
      var sourceURL := ParentSourceURL(env, servers[i], parent, lfn);
      InterSiteSourcesExtend(env, parent, servers, lfn, thirdPartyDestURL, i);
      if !EqualsIgnoreCase(sourceURL, thirdPartyDestURL) {
        sources := sources + [Endpoint(parent.stagingSite, sourceURL)];
      }
      i := i + 1;
    }
    assert servers[..i] == servers;
  }

  lemma InterSiteSourcesExtend(env: Env, parent: Job, servers: seq<FileServer>, lfn: string,
                                thirdPartyDestURL: string, i: nat)
    requires i < |servers|
    ensures var url := ParentSourceURL(env, servers[i], parent, lfn);
            InterSiteSources(env, parent, servers[..i + 1], lfn, thirdPartyDestURL)
            == InterSiteSources(env, parent, servers[..i], lfn, thirdPartyDestURL)
               + (if EqualsIgnoreCase(url, thirdPartyDestURL) then [] else [Endpoint(parent.stagingSite, url)])
  {
    assert servers[..i + 1][..i] == servers[..i];
  }

  /** The two batches of inter-site descriptors, and the transient catalog. */
  datatype InterSiteAcc = InterSiteAcc(local: seq<FileTransfer>, remote: seq<FileTransfer>, rc: seq<Placement>)

  /** The descriptor for an output of a parent that the job reads: from the
      parent's scratch directory, through each of its GET servers, to the
      job's staging site; none when no server is left as a source. */
  function InterSiteTransfer(cfg: Config, job: Job, parent: Job, target: InterSiteTarget,
                             pf: PFile): Option<FileTransfer>
    requires parent.stagingSite in cfg.sites && cfg.sites[parent.stagingSite].scratch.Some?
  {
    var sources := InterSiteSources(cfg.env, parent, ServersFor(cfg.sites[parent.stagingSite].scratch.value, GetOperations),
                                    pf.lfn, target.thirdPartyURI + Separator + pf.lfn);
    var ft := FileTransfer(pf.lfn, parent.name, sources, [Endpoint(job.stagingSite, target.destURI + Separator + pf.lfn)],
                           None, pf.size, Data, Mandatory, false, false, false);
    if ValidTransfer(ft) then Some(ft) else None
  }

  /** The batch of descriptors chosen by where the transfers run. */
  function Batch(acc: InterSiteAcc, local: bool): seq<FileTransfer> {
    if local then acc.local else acc.remote
  }

  /** One output of a parent: if the job reads it, the destination is
      recorded in the transient catalog, then the descriptor, if it has a
      source, joins the batch chosen by where the transfer runs. */
  function InterSiteFile(cfg: Config, job: Job, parent: Job, target: InterSiteTarget, pf: PFile,
                         acc: InterSiteAcc): (r: Run<InterSiteAcc>)
    requires parent.stagingSite in cfg.sites
    ensures !HasLfn(job.inputFiles, pf.lfn) ==> r == Run(None, acc)
    ensures HasLfn(job.inputFiles, pf.lfn) ==>
              r.state.rc == acc.rc + [Placement(pf.lfn, target.destURI + Separator + pf.lfn, job.stagingSite)]
    ensures HasLfn(job.inputFiles, pf.lfn) && cfg.sites[parent.stagingSite].scratch.None? ==>
              r.failure == Some(NoScratchDirectory(parent.stagingSite))
    ensures Extends(acc, r.state)
  {
    if !HasLfn(job.inputFiles, pf.lfn) then Run(None, acc)
    else
      var acc1 := acc.(rc := acc.rc + [Placement(pf.lfn, target.destURI + Separator + pf.lfn, job.stagingSite)]);
      if cfg.sites[parent.stagingSite].scratch.None? then Run(Some(NoScratchDirectory(parent.stagingSite)), acc1)
      else
        match InterSiteTransfer(cfg, job, parent, target, pf)
        case None => Run(None, acc1)
        case Some(ft) =>
          if target.local then Run(None, acc1.(local := acc1.local + [ft]))
          else Run(None, acc1.(remote := acc1.remote + [ft]))
  }

  /** An output of a parent that the job reads, from a parent whose scratch
      directory exists, is handled without failure and adds exactly its
      descriptor, when it has one, to the batch chosen by where the transfer
      runs; the other batch is left alone. */
  lemma InterSiteFileComplete(cfg: Config, job: Job, parent: Job, target: InterSiteTarget, pf: PFile,
                              acc: InterSiteAcc)
    requires parent.stagingSite in cfg.sites && cfg.sites[parent.stagingSite].scratch.Some?
    requires HasLfn(job.inputFiles, pf.lfn)
    ensures var r := InterSiteFile(cfg, job, parent, target, pf, acc);
            var t := InterSiteTransfer(cfg, job, parent, target, pf);
            && r.failure.None?
            && (t.Some? ==> Batch(r.state, target.local) == Batch(acc, target.local) + [t.value])
            && (t.None? ==> Batch(r.state, target.local) == Batch(acc, target.local))
            && Batch(r.state, !target.local) == Batch(acc, !target.local)
  {
  }

  /** A run extends what an earlier run extended. */
  lemma ExtendsTrans(a: InterSiteAcc, b: InterSiteAcc, c: InterSiteAcc)
    requires Extends(a, b) && Extends(b, c)
    ensures Extends(a, c)
  {
    assert c.local[..|a.local|] == c.local[..|b.local|][..|a.local|];
    assert c.remote[..|a.remote|] == c.remote[..|b.remote|][..|a.remote|];
    assert c.rc[..|a.rc|] == c.rc[..|b.rc|][..|a.rc|];
  }

  /** A descriptor already in a batch stays in it. */
  lemma ExtendsKeeps(a: InterSiteAcc, b: InterSiteAcc, local: bool, ft: FileTransfer)
    requires Extends(a, b) && ft in Batch(a, local)
    ensures ft in Batch(b, local)
  {
    var k :| 0 <= k < |Batch(a, local)| && Batch(a, local)[k] == ft;
    assert Batch(b, local)[..|Batch(a, local)|] == Batch(a, local);
    assert Batch(b, local)[k] == ft;
  }

  /** The parent's outputs from the `k`-th on. */
  function InterSiteFilesFrom(cfg: Config, job: Job, parent: Job, target: InterSiteTarget, k: nat,
                              acc: InterSiteAcc): (r: Run<InterSiteAcc>)
    requires parent.stagingSite in cfg.sites
    requires k <= |parent.outputFiles|
    ensures r.failure.Some? ==> r.failure == Some(NoScratchDirectory(parent.stagingSite))
    decreases |parent.outputFiles| - k
  {
    if k == |parent.outputFiles| then Run(None, acc)
    else
      var step := InterSiteFile(cfg, job, parent, target, parent.outputFiles[k], acc);
      if step.failure.Some? then step
      else InterSiteFilesFrom(cfg, job, parent, target, k + 1, step.state)
  }

  /** One parent: none of its outputs move when it ran on the job's staging
      site (ignoring case). */
  function InterSiteParent(cfg: Config, job: Job, parent: Job, acc: InterSiteAcc): (r: Run<InterSiteAcc>)
    ensures parent.stagingSite !in cfg.sites ==> r.failure == Some(SiteNotFound(parent.stagingSite))
    ensures parent.stagingSite in cfg.sites && EqualsIgnoreCase(parent.stagingSite, job.stagingSite)
            ==> r == Run(None, acc)
    ensures r.failure.Some? ==>
              r.failure.value.SiteNotFound? || r.failure.value.NoFileServer? || r.failure.value.NoScratchDirectory?
  {
    if parent.stagingSite !in cfg.sites then Run(Some(SiteNotFound(parent.stagingSite)), acc)
    else if EqualsIgnoreCase(parent.stagingSite, job.stagingSite) then Run(None, acc)
    else
      match InterSiteDestination(cfg, job)
      case Fail(e) => Run(Some(e), acc)
      case Ok(target) => InterSiteFilesFrom(cfg, job, parent, target, 0, acc)
  }

  /** getInterpoolFileTX from the `i`-th parent on. */
  function InterpoolFrom(cfg: Config, job: Job, parents: seq<Job>, i: nat, acc: InterSiteAcc): (r: Run<InterSiteAcc>)
    requires i <= |parents|
    ensures r.failure.Some? ==>
              r.failure.value.SiteNotFound? || r.failure.value.NoFileServer? || r.failure.value.NoScratchDirectory?
    decreases |parents| - i
  {
    if i == |parents| then Run(None, acc)
    else
      var step := InterSiteParent(cfg, job, parents[i], acc);
      if step.failure.Some? then step
      else InterpoolFrom(cfg, job, parents, i + 1, step.state)
  }

  /** An inter-site descriptor moves an output of `parent` that the job
      reads, from the parent's staging site to the job's, which differ. */
  predicate FromParent(job: Job, parent: Job, ft: FileTransfer) {
    && ft.job == parent.name
    && HasLfn(parent.outputFiles, ft.lfn)
    && HasLfn(job.inputFiles, ft.lfn)
    && ValidTransfer(ft)
    && |ft.dests| == 1 && ft.dests[0].site == job.stagingSite
    && (forall e :: e in ft.sources ==> e.site == parent.stagingSite)
    && !EqualsIgnoreCase(parent.stagingSite, job.stagingSite)
  }

  /** A run only appends: the batches and the catalog it was given are
      prefixes of those it returns. */
  predicate Extends(acc: InterSiteAcc, s: InterSiteAcc) {
    && |acc.local| <= |s.local| && s.local[..|acc.local|] == acc.local
    && |acc.remote| <= |s.remote| && s.remote[..|acc.remote|] == acc.remote
    && |acc.rc| <= |s.rc| && s.rc[..|acc.rc|] == acc.rc
  }

  /** A descriptor is inter-site for `parents` when it comes from one of them. */
  predicate InterSiteDescriptor(job: Job, parents: seq<Job>, ft: FileTransfer) {
    exists p :: p in parents && FromParent(job, p, ft)
  }

  predicate AllInterSite(job: Job, parents: seq<Job>, acc: InterSiteAcc) {
    && (forall ft :: ft in acc.local ==> InterSiteDescriptor(job, parents, ft))
    && (forall ft :: ft in acc.remote ==> InterSiteDescriptor(job, parents, ft))
  }

  /** One output of a parent adds at most one descriptor, from that parent,
      to the batch chosen by where the transfer runs. */
  lemma InterSiteFileSound(cfg: Config, job: Job, parents: seq<Job>, parent: Job,
                           target: InterSiteTarget, pf: PFile, acc: InterSiteAcc)
    requires parent in parents && parent.stagingSite in cfg.sites && pf in parent.outputFiles
    requires !EqualsIgnoreCase(parent.stagingSite, job.stagingSite)
    requires AllInterSite(job, parents, acc)
    ensures var s := InterSiteFile(cfg, job, parent, target, pf, acc).state;
            && Extends(acc, s)
            && AllInterSite(job, parents, s)
            && (target.local ==> s.remote == acc.remote)
            && (!target.local ==> s.local == acc.local)
  {
    var s := InterSiteFile(cfg, job, parent, target, pf, acc).state;
    var k :| 0 <= k < |parent.outputFiles| && parent.outputFiles[k] == pf;
    assert HasLfn(parent.outputFiles, pf.lfn);
    forall ft | ft in s.local || ft in s.remote
      ensures InterSiteDescriptor(job, parents, ft)
    {
      if ft !in acc.local && ft !in acc.remote {
        assert FromParent(job, parent, ft);
      }
    }
  }

  lemma {:induction false} InterSiteFilesFromSound(cfg: Config, job: Job, parents: seq<Job>, parent: Job,
                                                   target: InterSiteTarget, k: nat, acc: InterSiteAcc)
    requires parent in parents && parent.stagingSite in cfg.sites
    requires k <= |parent.outputFiles|
    requires !EqualsIgnoreCase(parent.stagingSite, job.stagingSite)
    requires AllInterSite(job, parents, acc)
    ensures var s := InterSiteFilesFrom(cfg, job, parent, target, k, acc).state;
            && Extends(acc, s)
            && AllInterSite(job, parents, s)
            && (target.local ==> s.remote == acc.remote)
            && (!target.local ==> s.local == acc.local)
    decreases |parent.outputFiles| - k
  {
    if k < |parent.outputFiles| {
      var pf := parent.outputFiles[k];
      var step := InterSiteFile(cfg, job, parent, target, pf, acc);
      if step.failure.None? {
        InterSiteFileSound(cfg, job, parents, parent, target, pf, acc);
        InterSiteFilesFromSound(cfg, job, parents, parent, target, k + 1, step.state);
        var s := InterSiteFilesFrom(cfg, job, parent, target, k + 1, step.state).state;
        assert s.local[..|acc.local|] == s.local[..|step.state.local|][..|acc.local|];
        assert s.remote[..|acc.remote|] == s.remote[..|step.state.remote|][..|acc.remote|];
        assert s.rc[..|acc.rc|] == s.rc[..|step.state.rc|][..|acc.rc|];
      }
    }
  }

  /** getInterpoolFileTX keeps what it was given and adds only descriptors
      that move a parent's output the job reads from a different staging
      site; the local batch grows only when such transfers run on the submit
      host, the remote batch only when they do not. */
  lemma {:induction false} InterpoolSound(cfg: Config, job: Job, parents: seq<Job>, i: nat, acc: InterSiteAcc)
    requires i <= |parents|
    requires AllInterSite(job, parents, acc)
    ensures var s := InterpoolFrom(cfg, job, parents, i, acc).state;
            && Extends(acc, s)
            && AllInterSite(job, parents, s)
            && (|s.local| > |acc.local| ==> InterSiteDestination(cfg, job).Ok? && InterSiteDestination(cfg, job).value.local)
            && (|s.remote| > |acc.remote| ==> InterSiteDestination(cfg, job).Ok? && !InterSiteDestination(cfg, job).value.local)
    decreases |parents| - i
  {
    if i < |parents| {
      var parent := parents[i];
      var step := InterSiteParent(cfg, job, parent, acc);
      if parent.stagingSite in cfg.sites && !EqualsIgnoreCase(parent.stagingSite, job.stagingSite)
         && InterSiteDestination(cfg, job).Ok? {
        InterSiteFilesFromSound(cfg, job, parents, parent, InterSiteDestination(cfg, job).value, 0, acc);
      }
      if step.failure.None? {
        InterpoolSound(cfg, job, parents, i + 1, step.state);
        var s := InterpoolFrom(cfg, job, parents, i + 1, step.state).state;
        assert s.local[..|acc.local|] == s.local[..|step.state.local|][..|acc.local|];
        assert s.remote[..|acc.remote|] == s.remote[..|step.state.remote|][..|acc.remote|];
        assert s.rc[..|acc.rc|] == s.rc[..|step.state.rc|][..|acc.rc|];
      }
    }
  }

  lemma {:induction false} InterSiteFilesFromExtends(cfg: Config, job: Job, parent: Job, target: InterSiteTarget,
                                                     k: nat, acc: InterSiteAcc)
    requires parent.stagingSite in cfg.sites && k <= |parent.outputFiles|
    ensures Extends(acc, InterSiteFilesFrom(cfg, job, parent, target, k, acc).state)
    decreases |parent.outputFiles| - k
  {
    if k < |parent.outputFiles| {
      var step := InterSiteFile(cfg, job, parent, target, parent.outputFiles[k], acc);
      if step.failure.None? {
        InterSiteFilesFromExtends(cfg, job, parent, target, k + 1, step.state);
        ExtendsTrans(acc, step.state, InterSiteFilesFrom(cfg, job, parent, target, k + 1, step.state).state);
      }
    }
  }

  lemma {:induction false} InterpoolExtends(cfg: Config, job: Job, parents: seq<Job>, i: nat, acc: InterSiteAcc)
    requires i <= |parents|
    ensures Extends(acc, InterpoolFrom(cfg, job, parents, i, acc).state)
    decreases |parents| - i
  {
    if i < |parents| {
      var parent := parents[i];
      var step := InterSiteParent(cfg, job, parent, acc);
      if parent.stagingSite in cfg.sites && !EqualsIgnoreCase(parent.stagingSite, job.stagingSite)
         && InterSiteDestination(cfg, job).Ok? {
        InterSiteFilesFromExtends(cfg, job, parent, InterSiteDestination(cfg, job).value, 0, acc);
      }
      if step.failure.None? {
        InterpoolExtends(cfg, job, parents, i + 1, step.state);
        ExtendsTrans(acc, step.state, InterpoolFrom(cfg, job, parents, i + 1, step.state).state);
      }
    }
  }

  /** Every output from the `k`-th on that the job reads comes from an
      existing scratch directory and has its descriptor, when it has one,
      in the batch chosen by where the transfers run. */
  predicate Covers(cfg: Config, job: Job, parent: Job, target: InterSiteTarget, s: InterSiteAcc, k: nat)
    requires parent.stagingSite in cfg.sites
  {
    forall m :: k <= m < |parent.outputFiles| && HasLfn(job.inputFiles, parent.outputFiles[m].lfn) ==>
      && cfg.sites[parent.stagingSite].scratch.Some?
      && (InterSiteTransfer(cfg, job, parent, target, parent.outputFiles[m]).Some? ==>
            InterSiteTransfer(cfg, job, parent, target, parent.outputFiles[m]).value in Batch(s, target.local))
  }

  /** A parent on a different staging site has its staging site known, the
      job's destination resolved, and every output the job reads covered. */
  predicate ParentCovered(cfg: Config, job: Job, parent: Job, s: InterSiteAcc) {
    !EqualsIgnoreCase(parent.stagingSite, job.stagingSite) ==>
      && parent.stagingSite in cfg.sites
      && InterSiteDestination(cfg, job).Ok?
      && Covers(cfg, job, parent, InterSiteDestination(cfg, job).value, s, 0)
  }

  lemma CoversKept(cfg: Config, job: Job, parent: Job, target: InterSiteTarget, s: InterSiteAcc,
                   s2: InterSiteAcc, k: nat)
    requires parent.stagingSite in cfg.sites
    requires Covers(cfg, job, parent, target, s, k) && Extends(s, s2)
    ensures Covers(cfg, job, parent, target, s2, k)
  {
    forall m | k <= m < |parent.outputFiles| && HasLfn(job.inputFiles, parent.outputFiles[m].lfn)
               && InterSiteTransfer(cfg, job, parent, target, parent.outputFiles[m]).Some?
      ensures InterSiteTransfer(cfg, job, parent, target, parent.outputFiles[m]).value in Batch(s2, target.local)
    {
      ExtendsKeeps(s, s2, target.local, InterSiteTransfer(cfg, job, parent, target, parent.outputFiles[m]).value);
    }
  }

  /** A successful walk over a parent's outputs from the `k`-th on covers
      every one of them that the job reads. */
  lemma {:induction false} InterSiteFilesFromComplete(cfg: Config, job: Job, parent: Job, target: InterSiteTarget,
                                                      k: nat, acc: InterSiteAcc)
    requires parent.stagingSite in cfg.sites && k <= |parent.outputFiles|
    requires InterSiteFilesFrom(cfg, job, parent, target, k, acc).failure.None?
    ensures Covers(cfg, job, parent, target, InterSiteFilesFrom(cfg, job, parent, target, k, acc).state, k)
    decreases |parent.outputFiles| - k
  {
    if k < |parent.outputFiles| {
      var pf := parent.outputFiles[k];
      var step := InterSiteFile(cfg, job, parent, target, pf, acc);
      var s := InterSiteFilesFrom(cfg, job, parent, target, k + 1, step.state).state;
      InterSiteFilesFromComplete(cfg, job, parent, target, k + 1, step.state);
      if HasLfn(job.inputFiles, pf.lfn) {
        InterSiteFileComplete(cfg, job, parent, target, pf, acc);
        var t := InterSiteTransfer(cfg, job, parent, target, pf);
        if t.Some? {
          InterSiteFilesFromExtends(cfg, job, parent, target, k + 1, step.state);
          ExtendsKeeps(step.state, s, target.local, t.value);
        }
      }
    }
  }

  /** getInterpoolFileTX misses nothing: when it succeeds, every output
      that the job reads of a parent on a different staging site has its
      descriptor, if it has a source, in the batch chosen by where the
      transfers run. */
  lemma {:induction false} InterpoolComplete(cfg: Config, job: Job, parents: seq<Job>, i: nat, acc: InterSiteAcc)
    requires i <= |parents|
    requires InterpoolFrom(cfg, job, parents, i, acc).failure.None?
    ensures forall j :: i <= j < |parents| ==>
              ParentCovered(cfg, job, parents[j], InterpoolFrom(cfg, job, parents, i, acc).state)
    decreases |parents| - i
  {
    if i < |parents| {
      var parent := parents[i];
      var step := InterSiteParent(cfg, job, parent, acc);
      var s := InterpoolFrom(cfg, job, parents, i + 1, step.state).state;
      InterpoolComplete(cfg, job, parents, i + 1, step.state);
      if !EqualsIgnoreCase(parent.stagingSite, job.stagingSite) {
        var target := InterSiteDestination(cfg, job).value;
        InterSiteFilesFromComplete(cfg, job, parent, target, 0, acc);
        InterpoolExtends(cfg, job, parents, i + 1, step.state);
        CoversKept(cfg, job, parent, target, step.state, s, 0);
      }
    }
  }

  // ------------------------------------------------------ processParents

  /** The logical names the parents produce. */
  function ParentOutputs(parents: seq<Job>): (r: set<string>)
    ensures forall lfn :: lfn in r <==> exists j :: 0 <= j < |parents| && HasLfn(parents[j].outputFiles, lfn)
  {
    if parents == [] then {}
    else
      var last := parents[|parents| - 1];
      var init := ParentOutputs(parents[..|parents| - 1]);
      assert forall j :: 0 <= j < |parents| - 1 ==> parents[..|parents| - 1][j] == parents[j];
      init + set f | f in last.outputFiles :: f.lfn
  }

  /** getOutputFiles: the union of the parents' outputs, parent by parent. */
  method GetOutputFiles(parents: seq<Job>) returns (files: set<string>)
    ensures files == ParentOutputs(parents)
  {
    files := {};
    var i := 0;
    while i < |parents|
      invariant 0 <= i <= |parents|
      invariant files == ParentOutputs(parents[..i])
    {
      var outputs := parents[i].outputFiles;
      var added := {};
      var j := 0;
      while j < |outputs|
        invariant 0 <= j <= |outputs|
        invariant added == set f | f in outputs[..j] :: f.lfn
      {
        assert outputs[..j + 1] == outputs[..j] + [outputs[j]];
        added := added + {outputs[j].lfn};
        j := j + 1;
      }
      assert outputs[..j] == outputs;
      assert parents[..i + 1][..i] == parents[..i];
      files := files + added;
      i := i + 1;
    }
    assert parents[..i] == parents;
  }

  /** The inputs to look up in the replica catalog: those no parent
      produces, unless their transfer is transient. */
  function RCSearchFiles(inputs: seq<PFile>, parentOutputs: set<string>): (r: seq<PFile>)
    ensures |r| <= |inputs|
  {
    if inputs == [] then []
    else
      var pf := inputs[|inputs| - 1];
      RCSearchFiles(inputs[..|inputs| - 1], parentOutputs)
      + (if pf.lfn !in parentOutputs && !pf.transientTransfer then [pf] else [])
  }

  /** An input is looked up in the replica catalog exactly when no parent
      produces it and its transfer is not transient. */
  lemma {:induction false} RCSearchFilesMembership(inputs: seq<PFile>, parentOutputs: set<string>)
    ensures forall pf :: pf in RCSearchFiles(inputs, parentOutputs) <==>
              pf in inputs && pf.lfn !in parentOutputs && !pf.transientTransfer
  {
    if inputs != [] {
      RCSearchFilesMembership(inputs[..|inputs| - 1], parentOutputs);
      assert inputs == inputs[..|inputs| - 1] + [inputs[|inputs| - 1]];
    }
  }

  /** The filter loop of processParents. */
  method CollectRCSearchFiles(inputs: seq<PFile>, parentOutputs: set<string>) returns (search: seq<PFile>)
    ensures search == RCSearchFiles(inputs, parentOutputs)
  {
    search := [];
    var i := 0;
    while i < |inputs|
      invariant 0 <= i <= |inputs|
      invariant search == RCSearchFiles(inputs[..i], parentOutputs)
    {
      assert inputs[..i + 1][..i] == inputs[..i];
      var pf := inputs[i];
      if pf.lfn !in parentOutputs && !pf.transientTransfer {
        search := search + [pf];
      }
      i := i + 1;
    }
    assert inputs[..i] == inputs;
  }
}
