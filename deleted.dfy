/** Stage-out of the outputs of jobs removed by workflow reduction
    (getDeletedFileTX): their files already exist somewhere the replica
    catalog knows of and go straight to the output site. */
module Deleted {
  import opened Text
  import opened Entities
  import opened Urls

  /** A location is the output-site URL when the two agree, blanks trimmed and case ignored. */
  predicate AtOutputSite(loc: Replica, putURL: string) {
    EqualsIgnoreCase(Trim(loc.pfn), Trim(putURL))
  }

  predicate AnyAtOutputSite(locs: seq<Replica>, putURL: string) {
    exists k :: 0 <= k < |locs| && AtOutputSite(locs[k], putURL)
  }

  /** The descriptor built from one selected location of a deleted job's output. */
  function DeletedTransfer(job: Job, pf: PFile, pool: string, loc: Replica, putURL: string,
                           getURL: string): FileTransfer
  {
    FileTransfer(pf.lfn, job.name, [Endpoint(loc.site, loc.pfn)], [Endpoint(pool, putURL)], Some(getURL),
                 pf.size, Data, Mandatory, false, false, false)
  }

  /** What one output file of a deleted job needs, before any descriptor is
      chosen: its output-site URLs for PUT and GET and its locations on the
      pool, the placement chosen as for a stage-out. */
  datatype DeletedLookup = DeletedLookup(putURL: string, getURL: string, locations: seq<Replica>)

  function LookupDeletedFile(cfg: Config, area: StageOutArea, outputSite: string, pool: string,
                             pf: PFile): (r: Result<DeletedLookup>)
    ensures pf.lfn !in cfg.catalog ==> r == Fail(NoReplica(pf.lfn))
    ensures r.Ok? ==> pf.lfn in cfg.catalog
    ensures r.Ok? ==> URLOnStageoutDirectory(cfg.env, area, outputSite, Put, pf.lfn) == Ok(r.value.putURL)
    ensures r.Ok? ==> URLOnStageoutDirectory(cfg.env, area, outputSite, Get, pf.lfn) == Ok(r.value.getURL)
    ensures r.Ok? ==> r.value.locations
                      == cfg.env.selectReplicas(cfg.catalog[pf.lfn], pool,
                                                RunTransferOnLocalSite(cfg.adv, pool, Some(r.value.putURL), StageOutJob))
    ensures pf.lfn in cfg.catalog && URLOnStageoutDirectory(cfg.env, area, outputSite, Put, pf.lfn).Fail?
            ==> r == Fail(URLOnStageoutDirectory(cfg.env, area, outputSite, Put, pf.lfn).error)
  {
    if pf.lfn !in cfg.catalog then Fail(NoReplica(pf.lfn))
    else
      match URLOnStageoutDirectory(cfg.env, area, outputSite, Put, pf.lfn)
      case Fail(e) => Fail(e)
      case Ok(putURL) =>
        match URLOnStageoutDirectory(cfg.env, area, outputSite, Get, pf.lfn)
        case Fail(e) => Fail(e)
        case Ok(getURL) =>
          var local := RunTransferOnLocalSite(cfg.adv, pool, Some(putURL), StageOutJob);
          Ok(DeletedLookup(putURL, getURL, cfg.env.selectReplicas(cfg.catalog[pf.lfn], pool, local)))
  }

  /** The descriptor of one output of a deleted job, as intended: none when
      the file's transfer is transient, when a location already is the
      output-site URL, or when the pool has no location at all; otherwise
      one from the last location to the output site. */
  function DeletedFileDescriptor(cfg: Config, area: StageOutArea, outputSite: string, pool: string,
                                 job: Job, pf: PFile): (r: Result<Option<FileTransfer>>)
    ensures r.Ok? && r.value.Some? ==>
              && !pf.transientTransfer
              && LookupDeletedFile(cfg, area, outputSite, pool, pf).Ok?
              && ValidTransfer(r.value.value)
              && r.value.value.lfn == pf.lfn
              && r.value.value.job == job.name
              && r.value.value.dests == [Endpoint(pool, LookupDeletedFile(cfg, area, outputSite, pool, pf).value.putURL)]
              && r.value.value.registrationURL == Some(LookupDeletedFile(cfg, area, outputSite, pool, pf).value.getURL)
              && !AnyAtOutputSite(LookupDeletedFile(cfg, area, outputSite, pool, pf).value.locations,
                                  LookupDeletedFile(cfg, area, outputSite, pool, pf).value.putURL)
    ensures r.Fail? ==> r.error.NoReplica? || r.error.NoFileServer? || r.error.AllocationFailed?
  {
    if pf.transientTransfer then Ok(None)
    else
      match LookupDeletedFile(cfg, area, outputSite, pool, pf)
      case Fail(e) => Fail(e)
      case Ok(look) =>
        if AnyAtOutputSite(look.locations, look.putURL) || look.locations == [] then Ok(None)
        else Ok(Some(DeletedTransfer(job, pf, pool, look.locations[|look.locations| - 1], look.putURL, look.getURL)))
  }

  /** getDeletedFileTX from the `i`-th output on, as intended. */
  function DeletedFileTXFrom(cfg: Config, area: StageOutArea, outputSite: string, pool: string,
                             job: Job, i: nat, acc: seq<FileTransfer>): (r: Result<seq<FileTransfer>>)
    requires i <= |job.outputFiles|
    ensures r.Fail? ==> r.error.NoReplica? || r.error.NoFileServer? || r.error.AllocationFailed?
    decreases |job.outputFiles| - i
  {
    if i == |job.outputFiles| then Ok(acc)
    else
      match DeletedFileDescriptor(cfg, area, outputSite, pool, job, job.outputFiles[i])
      case Fail(e) => Fail(e)
      case Ok(None) => DeletedFileTXFrom(cfg, area, outputSite, pool, job, i + 1, acc)
      case Ok(Some(ft)) => DeletedFileTXFrom(cfg, area, outputSite, pool, job, i + 1, acc + [ft])
  }

  /** The walk over a file's locations: the descriptor from the last one,
      unless one of them is already the output-site URL. */
  method ScanLocations(job: Job, pf: PFile, pool: string, look: DeletedLookup)
    returns (ft: Option<FileTransfer>, atOutput: bool)
    ensures atOutput <==> AnyAtOutputSite(look.locations, look.putURL)
    ensures !atOutput && look.locations != [] ==>
              ft == Some(DeletedTransfer(job, pf, pool, look.locations[|look.locations| - 1], look.putURL, look.getURL))
    ensures look.locations == [] ==> ft.None?
  {
    ft := None;
    atOutput := false;
    var k := 0;
    while k < |look.locations|
      invariant 0 <= k <= |look.locations|
      invariant !AnyAtOutputSite(look.locations[..k], look.putURL)
      invariant k == 0 ==> ft.None?
      invariant k > 0 ==> ft == Some(DeletedTransfer(job, pf, pool, look.locations[k - 1], look.putURL, look.getURL))
    {
      var loc := look.locations[k];
      if EqualsIgnoreCase(Trim(loc.pfn), Trim(look.putURL)) {
        atOutput := true;
        return;
      }
      assert forall j :: 0 <= j < k ==> look.locations[..k + 1][j] == look.locations[..k][j];
      ft := Some(DeletedTransfer(job, pf, pool, loc, look.putURL, look.getURL));
      k := k + 1;
    }
    assert look.locations[..k] == look.locations;
  }

  /** One output file of a deleted job, as intended; a method of its own,
      apart from `DeletedFileDescriptor`, so that the loop's proof stays small. */
  method BuildDeletedDescriptor(cfg: Config, area: StageOutArea, outputSite: string, pool: string,
                                job: Job, pf: PFile)
    returns (r: Result<Option<FileTransfer>>)
    ensures r == DeletedFileDescriptor(cfg, area, outputSite, pool, job, pf)
  {
    if pf.transientTransfer {
      return Ok(None);
    }
    var look := LookupDeletedFile(cfg, area, outputSite, pool, pf);
    if look.Fail? {
      return Fail(look.error);
    }
    var ft, atOutput := ScanLocations(job, pf, pool, look.value);
    if atOutput {
      r := Ok(None);
    } else {
      r := Ok(ft);
    }
  }

  /** getDeletedFileTX, as intended: a file without any location on the
      pool is skipped. */
  method GetDeletedFileTX(cfg: Config, area: StageOutArea, outputSite: string, pool: string, job: Job)
    returns (r: Result<seq<FileTransfer>>)
    ensures r == DeletedFileTXFrom(cfg, area, outputSite, pool, job, 0, [])
  {
    var batch := [];
    var i := 0;
    while i < |job.outputFiles|
      invariant 0 <= i <= |job.outputFiles|
      invariant DeletedFileTXFrom(cfg, area, outputSite, pool, job, i, batch)
                == DeletedFileTXFrom(cfg, area, outputSite, pool, job, 0, [])
    {
      var d := BuildDeletedDescriptor(cfg, area, outputSite, pool, job, job.outputFiles[i]);
      if d.Fail? {
        return Fail(d.error);
      }
      if d.value.Some? {
        batch := batch + [d.value.value];
      }
      i := i + 1;
    }
    r := Ok(batch);
  }

  /** A file already at the output site under one of its locations is not transferred. */
  lemma AlreadyAtOutputSiteSkipped(cfg: Config, area: StageOutArea, outputSite: string, pool: string,
                                   job: Job, pf: PFile, k: nat)
    requires LookupDeletedFile(cfg, area, outputSite, pool, pf).Ok?
    requires var look := LookupDeletedFile(cfg, area, outputSite, pool, pf).value;
             k < |look.locations| && AtOutputSite(look.locations[k], look.putURL)
    ensures DeletedFileDescriptor(cfg, area, outputSite, pool, job, pf) == Ok(None)
  {
  }

  /** Otherwise a non-transient file with a location on the pool is moved
      from the last location to the output site's PUT URL. */
  lemma DeletedFileMovedFromLastLocation(cfg: Config, area: StageOutArea, outputSite: string, pool: string,
                                         job: Job, pf: PFile)
    requires !pf.transientTransfer
    requires LookupDeletedFile(cfg, area, outputSite, pool, pf).Ok?
    requires var look := LookupDeletedFile(cfg, area, outputSite, pool, pf).value;
             look.locations != [] && forall k :: 0 <= k < |look.locations| ==> !AtOutputSite(look.locations[k], look.putURL)
    ensures var look := LookupDeletedFile(cfg, area, outputSite, pool, pf).value;
            var last := look.locations[|look.locations| - 1];
            && DeletedFileDescriptor(cfg, area, outputSite, pool, job, pf).Ok?
            && DeletedFileDescriptor(cfg, area, outputSite, pool, job, pf).value.Some?
            && DeletedFileDescriptor(cfg, area, outputSite, pool, job, pf).value.value.sources
               == [Endpoint(last.site, last.pfn)]
  {
    var look := LookupDeletedFile(cfg, area, outputSite, pool, pf).value;
    assert !AnyAtOutputSite(look.locations, look.putURL);
  }

  /** `ft` moves a non-transient output of `job` on behalf of that job. */
  predicate MovesOutputOf(job: Job, ft: FileTransfer) {
    && ValidTransfer(ft)
    && ft.job == job.name
    && exists k :: 0 <= k < |job.outputFiles| && job.outputFiles[k].lfn == ft.lfn
                   && !job.outputFiles[k].transientTransfer
  }

  /** The batch only grows at its end, by at most one descriptor per output. */
  lemma {:induction false} DeletedBatchExtends(cfg: Config, area: StageOutArea, outputSite: string, pool: string,
                                               job: Job, i: nat, acc: seq<FileTransfer>)
    requires i <= |job.outputFiles|
    requires DeletedFileTXFrom(cfg, area, outputSite, pool, job, i, acc).Ok?
    ensures var b := DeletedFileTXFrom(cfg, area, outputSite, pool, job, i, acc).value;
            |acc| <= |b| <= |acc| + |job.outputFiles| - i && b[..|acc|] == acc
    decreases |job.outputFiles| - i
  {
    if i < |job.outputFiles| {
      var d := DeletedFileDescriptor(cfg, area, outputSite, pool, job, job.outputFiles[i]);
      var next := if d.value.Some? then acc + [d.value.value] else acc;
      DeletedBatchExtends(cfg, area, outputSite, pool, job, i + 1, next);
      var b := DeletedFileTXFrom(cfg, area, outputSite, pool, job, i + 1, next).value;
      assert b[..|acc|] == b[..|next|][..|acc|];
    }
  }

  /** Every descriptor the batch gains moves a non-transient output of the job. */
  lemma {:induction false} DeletedBatchSound(cfg: Config, area: StageOutArea, outputSite: string, pool: string,
                                             job: Job, i: nat, acc: seq<FileTransfer>)
    requires i <= |job.outputFiles|
    requires DeletedFileTXFrom(cfg, area, outputSite, pool, job, i, acc).Ok?
    requires forall ft :: ft in acc ==> MovesOutputOf(job, ft)
    ensures forall ft :: ft in DeletedFileTXFrom(cfg, area, outputSite, pool, job, i, acc).value ==> MovesOutputOf(job, ft)
    decreases |job.outputFiles| - i
  {
    if i < |job.outputFiles| {
      var d := DeletedFileDescriptor(cfg, area, outputSite, pool, job, job.outputFiles[i]);
      if d.value.Some? {
        assert MovesOutputOf(job, d.value.value);
        DeletedBatchSound(cfg, area, outputSite, pool, job, i + 1, acc + [d.value.value]);
      } else {
        DeletedBatchSound(cfg, area, outputSite, pool, job, i + 1, acc);
      }
    }
  }

  // ------------------------------------------------- as written in the source

  /** One output file as the source treats it: after a walk over no
      locations at all, the still-empty descriptor is added to the batch. */
  function DeletedFileEntryAsWritten(cfg: Config, area: StageOutArea, outputSite: string, pool: string,
                                     job: Job, pf: PFile): (r: Result<seq<Option<FileTransfer>>>)
    ensures r.Ok? ==> |r.value| <= 1
  {
    if pf.transientTransfer then Ok([])
    else
      match LookupDeletedFile(cfg, area, outputSite, pool, pf)
      case Fail(e) => Fail(e)
      case Ok(look) =>
        if AnyAtOutputSite(look.locations, look.putURL) then Ok([])
        else if look.locations == [] then Ok([None])
        else Ok([Some(DeletedTransfer(job, pf, pool, look.locations[|look.locations| - 1], look.putURL, look.getURL))])
  }

  /** A non-transient output whose pool has no location puts an empty
      descriptor into the batch handed to the refiner. */
  lemma NoLocationAddsEmptyDescriptor(cfg: Config, area: StageOutArea, outputSite: string, pool: string,
                                      job: Job, pf: PFile)
    requires !pf.transientTransfer
    requires LookupDeletedFile(cfg, area, outputSite, pool, pf).Ok?
    requires LookupDeletedFile(cfg, area, outputSite, pool, pf).value.locations == []
    ensures DeletedFileEntryAsWritten(cfg, area, outputSite, pool, job, pf) == Ok([None])
    ensures DeletedFileDescriptor(cfg, area, outputSite, pool, job, pf) == Ok(None)
  {
  }

  /** Apart from that case the corrected descriptor is the source's. */
  lemma CorrectedAgreesElsewhere(cfg: Config, area: StageOutArea, outputSite: string, pool: string,
                                 job: Job, pf: PFile)
    requires pf.transientTransfer || LookupDeletedFile(cfg, area, outputSite, pool, pf).Fail?
             || LookupDeletedFile(cfg, area, outputSite, pool, pf).value.locations != []
    ensures var w := DeletedFileEntryAsWritten(cfg, area, outputSite, pool, job, pf);
            var c := DeletedFileDescriptor(cfg, area, outputSite, pool, job, pf);
            && (w.Fail? <==> c.Fail?)
            && (w.Ok? ==> (w.value == [] <==> c.value.None?))
            && (w.Ok? && c.value.Some? ==> w.value == [c.value])
  {
  }
}
