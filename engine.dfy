/** The transfer engine: a walk over the workflow graph that, job by job,
    moves the outputs of parents on other staging sites, stages in the
    inputs nobody produces, and stages the outputs out to the output site
    or records where they are; jobs deleted by reduction then have their
    outputs moved to the output site (TransferEngine.java). */
module Engine {
  import opened Text
  import opened Entities
  import opened Urls
  import opened StageOut
  import opened InterSite
  import opened StageIn
  import opened Deleted

  /** A node of the workflow graph: the index of its job in the job table,
      the indices of its parents' jobs, and its depth. */
  datatype Node = Node(job: nat, parents: seq<nat>, depth: int)

  predicate NodeIn(node: Node, n: nat) {
    node.job < n && forall k :: 0 <= k < |node.parents| ==> node.parents[k] < n
  }

  predicate NodesIn(nodes: seq<Node>, n: nat) {
    forall node :: node in nodes ==> NodeIn(node, n)
  }

  /** What the engine changes: the job table, the deleted jobs, the
      transient catalog, and the calls made on the refiner. */
  datatype World = World(jobs: seq<Job>, deleted: seq<Job>, rc: seq<Placement>, log: seq<RefinerCall>)

  /** A job as one step leaves it, with the catalog and the refiner calls. */
  datatype Visit = Visit(job: Job, rc: seq<Placement>, log: seq<RefinerCall>)

  /** The jobs of the parents, in the graph's order. */
  function ParentJobs(jobs: seq<Job>, parents: seq<nat>): (r: seq<Job>)
    requires forall k :: 0 <= k < |parents| ==> parents[k] < |jobs|
    ensures |r| == |parents|
    ensures forall k :: 0 <= k < |parents| ==> r[k] == jobs[parents[k]]
  {
    seq(|parents|, k requires 0 <= k < |parents| => jobs[parents[k]])
  }

  // ---------------------------------------------------------- processParents

  /** The inter-site calls: one per non-empty batch, the local one first. */
  function InterSiteCalls(job: Job, local: seq<FileTransfer>, remote: seq<FileTransfer>): seq<RefinerCall> {
    (if local != [] then [AddInterSite(job.name, local, true)] else [])
    + (if remote != [] then [AddInterSite(job.name, remote, false)] else [])
  }

  /** The stage-in call, made only when there is something to stage in. */
  function StageInCalls(job: Job, local: seq<FileTransfer>, remote: seq<FileTransfer>): seq<RefinerCall> {
    if local != [] || remote != [] then [AddStageIn(job.name, local, remote)] else []
  }

  /** The replica-catalog half of processParents, by kind of job. */
  function SearchRC(cfg: Config, job: Job, search: seq<PFile>, rc: seq<Placement>,
                    log: seq<RefinerCall>): (r: Run<Visit>)
    ensures !job.kind.Compute? ==> r.state.rc == rc && r.state.log == log && r.state.job.inputFiles == []
    ensures r.failure.Some? ==> r.state.log == log
  {
    match job.kind
    case DAXJob(_) =>
      var r := DAXFromRC(cfg, job);
      Run(r.failure, Visit(r.state, rc, log))
    case DAGJob(_) =>
      var r := DAGFromRC(cfg, job);
      Run(r.failure, Visit(r.state, rc, log))
    case Compute =>
      var r := FilesFromRC(cfg, job, search, StageInAcc(job.inputFiles, [], [], rc));
      var job1 := job.(inputFiles := r.state.inputs);
      if r.failure.Some? then Run(r.failure, Visit(job1, r.state.rc, log))
      else Run(None, Visit(job1, r.state.rc, log + StageInCalls(job, r.state.local, r.state.remote)))
  }

  /** processParents: the inter-site transfers from the parents, then the
      inputs neither produced by a parent nor transient looked up in the
      replica catalog, if there are any. */
  function ParentsRun(cfg: Config, job: Job, parents: seq<Job>, rc: seq<Placement>,
                      log: seq<RefinerCall>): (r: Run<Visit>)
    ensures var inter := InterpoolFrom(cfg, job, parents, 0, InterSiteAcc([], [], rc));
            inter.failure.Some? ==> r.failure == inter.failure && r.state.job == job && r.state.log == log
    ensures RCSearchFiles(job.inputFiles, ParentOutputs(parents)) == [] ==> r.state.job == job
  {
    var inter := InterpoolFrom(cfg, job, parents, 0, InterSiteAcc([], [], rc));
    if inter.failure.Some? then Run(inter.failure, Visit(job, inter.state.rc, log))
    else
      var log1 := log + InterSiteCalls(job, inter.state.local, inter.state.remote);
      var search := RCSearchFiles(job.inputFiles, ParentOutputs(parents));
      if search == [] then Run(None, Visit(job, inter.state.rc, log1))
      else SearchRC(cfg, job, search, inter.state.rc, log1)
  }

  // ---------------------------------------------------- after processParents

  /** The stage-out of one job: its staging site and the URL prefix of a
      PUT server of its scratch must exist; the outputs' descriptors are
      then handed to the refiner, even when there are none. */
  function StageOutRun(cfg: Config, outputSite: string, factory: Factory, job: Job, rc: seq<Placement>,
                       log: seq<RefinerCall>): (r: Run<Visit>)
    ensures job.stagingSite !in cfg.sites ==> r.failure == Some(SiteNotFound(job.siteHandle))
    ensures job.stagingSite in cfg.sites && ScratchServer(cfg.env, cfg.sites[job.stagingSite], PutOperations).None?
            ==> r.failure == Some(NoFileServer(job.stagingSite, Put))
    ensures r.state.job == job
  {
    if job.stagingSite !in cfg.sites then Run(Some(SiteNotFound(job.siteHandle)), Visit(job, rc, log))
    else
      match ScratchServer(cfg.env, cfg.sites[job.stagingSite], PutOperations)
      case None => Run(Some(NoFileServer(job.stagingSite, Put)), Visit(job, rc, log))
      case Some(fs) =>
        var local := RunTransferOnLocalSite(cfg.adv, job.siteHandle, Some(fs.urlPrefix), StageOutJob);
        var r := FileTXFrom(cfg, factory, job, outputSite, local, 0, StageOutAcc([], rc));
        if r.failure.Some? then Run(r.failure, Visit(job, r.state.rc, log))
        else Run(None, Visit(job, r.state.rc, log + [AddStageOut(job.name, r.state.batch, local, false)]))
  }

  /** The URL of a job's output on its staging site, as a GET server sees it. */
  function TransientURL(env: Env, server: FileServer, job: Job, lfn: string): string {
    server.urlPrefix + env.externalWorkDir(server, job.siteHandle) + Separator + lfn
  }

  /** trackInTransientRC from the `i`-th output on. */
  function TrackFrom(cfg: Config, job: Job, i: nat, rc: seq<Placement>): (r: Run<seq<Placement>>)
    requires job.stagingSite in cfg.sites
    requires i <= |job.outputFiles|
    ensures |rc| <= |r.state| <= |rc| + |job.outputFiles| - i
    decreases |job.outputFiles| - i
  {
    if i == |job.outputFiles| then Run(None, rc)
    else
      match ScratchServer(cfg.env, cfg.sites[job.stagingSite], GetOperations)
      case None => Run(Some(NoFileServer(job.stagingSite, Get)), rc)
      case Some(server) =>
        var lfn := job.outputFiles[i].lfn;
        TrackFrom(cfg, job, i + 1, rc + [Placement(lfn, TransientURL(cfg.env, server, job, lfn), job.siteHandle)])
  }

  /** trackInTransientRC: every output of a job that is not staged out is
      recorded at its staging site's scratch, under the job's site. */
  function TrackRun(cfg: Config, job: Job, rc: seq<Placement>): (r: Run<seq<Placement>>)
    ensures job.stagingSite !in cfg.sites ==> r == Run(Some(SiteNotFound(job.stagingSite)), rc)
    ensures |rc| <= |r.state| <= |rc| + |job.outputFiles|
  {
    if job.stagingSite !in cfg.sites then Run(Some(SiteNotFound(job.stagingSite)), rc)
    else TrackFrom(cfg, job, 0, rc)
  }

  // ------------------------------------------------------------ the walk

  /** One node of the walk: its job gets the node's depth as level, then
      processParents, then stage-out or tracking. */
  function NodeRun(cfg: Config, outputSite: Option<string>, area: Option<StageOutArea>, node: Node,
                   w: World): (r: Run<World>)
    requires NodeIn(node, |w.jobs|)
    requires IsStageOut(outputSite) ==> area.Some?
    ensures |r.state.jobs| == |w.jobs| && r.state.deleted == w.deleted
  {
    var job := w.jobs[node.job].(level := node.depth);
    var jobs1 := w.jobs[node.job := job];
    var pp := ParentsRun(cfg, job, ParentJobs(jobs1, node.parents), w.rc, w.log);
    var jobs2 := jobs1[node.job := pp.state.job];
    if pp.failure.Some? then Run(pp.failure, World(jobs2, w.deleted, pp.state.rc, pp.state.log))
    else if IsStageOut(outputSite) then
      var so := StageOutRun(cfg, outputSite.value, area.value.factory, pp.state.job, pp.state.rc, pp.state.log);
      Run(so.failure, World(jobs2, w.deleted, so.state.rc, so.state.log))
    else
      var t := TrackRun(cfg, pp.state.job, pp.state.rc);
      Run(t.failure, World(jobs2, w.deleted, t.state, pp.state.log))
  }

  function NodesFrom(cfg: Config, outputSite: Option<string>, area: Option<StageOutArea>, nodes: seq<Node>,
                     i: nat, w: World): (r: Run<World>)
    requires i <= |nodes| && NodesIn(nodes, |w.jobs|)
    requires IsStageOut(outputSite) ==> area.Some?
    ensures |r.state.jobs| == |w.jobs| && r.state.deleted == w.deleted
    decreases |nodes| - i
  {
    if i == |nodes| then Run(None, w)
    else
      var step := NodeRun(cfg, outputSite, area, nodes[i], w);
      if step.failure.Some? then step
      else NodesFrom(cfg, outputSite, area, nodes, i + 1, step.state)
  }

  /** A deleted job before its outputs move: the level beyond any depth,
      the submit host as its site, and the staging site chosen for that. */
  function PrepareDeleted(env: Env, job: Job): (r: Job)
    ensures r.level == DeletedJobsLevel && r.siteHandle == LocalSite
    ensures r.stagingSite == GetStagingSite(env, job.(siteHandle := LocalSite))
    ensures r.(level := job.level, siteHandle := job.siteHandle, stagingSite := job.stagingSite) == job
  {
    var moved := job.(level := DeletedJobsLevel, siteHandle := LocalSite);
    moved.(stagingSite := GetStagingSite(env, moved))
  }

  /** The deleted jobs from the `i`-th on; a non-empty batch is handed to
      the refiner as a stage-out that runs on the submit host. */
  function DeletedFrom(cfg: Config, outputSite: string, area: StageOutArea, i: nat, w: World): (r: Run<World>)
    requires i <= |w.deleted|
    ensures |r.state.deleted| == |w.deleted| && r.state.jobs == w.jobs && r.state.rc == w.rc
    decreases |w.deleted| - i
  {
    if i == |w.deleted| then Run(None, w)
    else
      var job := PrepareDeleted(cfg.env, w.deleted[i]);
      var w1 := w.(deleted := w.deleted[i := job]);
      match DeletedFileTXFrom(cfg, area, outputSite, outputSite, job, 0, [])
      case Fail(e) => Run(Some(e), w1)
      case Ok(batch) =>
        DeletedFrom(cfg, outputSite, area, i + 1,
                    w1.(log := w1.log + (if batch != [] then [AddStageOut(job.name, batch, true, true)] else [])))
  }

  /** addTransferNodes: the walk over the graph, the deleted jobs when
      there is an output site, and finally the call telling the refiner it
      is done. */
  function TransferNodesRun(cfg: Config, outputSite: Option<string>, area: Option<StageOutArea>,
                            nodes: seq<Node>, w: World): (r: Run<World>)
    requires NodesIn(nodes, |w.jobs|)
    requires IsStageOut(outputSite) ==> area.Some?
    ensures |r.state.jobs| == |w.jobs| && |r.state.deleted| == |w.deleted|
    ensures !IsStageOut(outputSite) ==> r.state.deleted == w.deleted
  {
    var walk := NodesFrom(cfg, outputSite, area, nodes, 0, w);
    if walk.failure.Some? then walk
    else
      var r := if IsStageOut(outputSite) && walk.state.deleted != []
               then DeletedFrom(cfg, outputSite.value, area.value, 0, walk.state)
               else walk;
      if r.failure.Some? then r
      else Run(None, r.state.(log := r.state.log + [Done]))
  }

  // ------------------------------------------------------------- properties

  /** `log1` is `log0` with calls appended, none of them the final `Done`. */
  predicate Appended(log0: seq<RefinerCall>, log1: seq<RefinerCall>) {
    && |log0| <= |log1| && log1[..|log0|] == log0
    && forall k :: |log0| <= k < |log1| ==> !log1[k].Done?
  }

  lemma AppendedTrans(a: seq<RefinerCall>, b: seq<RefinerCall>, c: seq<RefinerCall>)
    requires Appended(a, b) && Appended(b, c)
    ensures Appended(a, c)
  {
    assert c[..|a|] == c[..|b|][..|a|];
    forall k | |a| <= k < |b|
      ensures c[k] == b[k]
    {
      assert c[..|b|][k] == c[k];
    }
  }

  /** processParents only appends to the refiner's log, and leaves the
      job's level, name, sites and outputs as they were. */
  lemma ParentsRunAppends(cfg: Config, job: Job, parents: seq<Job>, rc: seq<Placement>, log: seq<RefinerCall>)
    ensures var r := ParentsRun(cfg, job, parents, rc, log).state;
            && Appended(log, r.log)
            && r.job.level == job.level && r.job.name == job.name
            && r.job.siteHandle == job.siteHandle && r.job.stagingSite == job.stagingSite
            && r.job.outputFiles == job.outputFiles
    ensures var inter := InterpoolFrom(cfg, job, parents, 0, InterSiteAcc([], [], rc));
            inter.failure.Some? ==> ParentsRun(cfg, job, parents, rc, log).state.log == log
  {
    var inter := InterpoolFrom(cfg, job, parents, 0, InterSiteAcc([], [], rc));
    if inter.failure.None? {
      var log1 := log + InterSiteCalls(job, inter.state.local, inter.state.remote);
      assert Appended(log, log1);
      var search := RCSearchFiles(job.inputFiles, ParentOutputs(parents));
      if search != [] {
        var r := SearchRC(cfg, job, search, inter.state.rc, log1);
        SearchRCAppends(cfg, job, search, inter.state.rc, log1);
        AppendedTrans(log, log1, r.state.log);
      }
    }
  }

  /** A successful processParents makes, in order, one inter-site call per
      non-empty batch (the local batch first) and, for a compute job with
      inputs to look up in the replica catalog, one stage-in call when a
      stage-in batch is not empty; nothing else. */
  lemma ParentsRunCalls(cfg: Config, job: Job, parents: seq<Job>, rc: seq<Placement>, log: seq<RefinerCall>)
    requires ParentsRun(cfg, job, parents, rc, log).failure.None?
    ensures var inter := InterpoolFrom(cfg, job, parents, 0, InterSiteAcc([], [], rc)).state;
            var search := RCSearchFiles(job.inputFiles, ParentOutputs(parents));
            var st := FilesFromRC(cfg, job, search, StageInAcc(job.inputFiles, [], [], inter.rc)).state;
            ParentsRun(cfg, job, parents, rc, log).state.log
            == log
               + (if inter.local != [] then [AddInterSite(job.name, inter.local, true)] else [])
               + (if inter.remote != [] then [AddInterSite(job.name, inter.remote, false)] else [])
               + (if search != [] && job.kind.Compute? && (st.local != [] || st.remote != [])
                  then [AddStageIn(job.name, st.local, st.remote)] else [])
  {
    var inter := InterpoolFrom(cfg, job, parents, 0, InterSiteAcc([], [], rc)).state;
    var search := RCSearchFiles(job.inputFiles, ParentOutputs(parents));
    var log1 := log + InterSiteCalls(job, inter.local, inter.remote);
    var st := FilesFromRC(cfg, job, search, StageInAcc(job.inputFiles, [], [], inter.rc)).state;
    var a := if inter.local != [] then [AddInterSite(job.name, inter.local, true)] else [];
    var b := if inter.remote != [] then [AddInterSite(job.name, inter.remote, false)] else [];
    var c := if search != [] && job.kind.Compute? && (st.local != [] || st.remote != [])
             then [AddStageIn(job.name, st.local, st.remote)] else [];
    assert log1 == log + a + b;
    ParentsRunLog(cfg, job, parents, rc, log);
    if search != [] {
      SearchRCAppends(cfg, job, search, inter.rc, log1);
    }
    assert ParentsRun(cfg, job, parents, rc, log).state.log == log1 + c;
  }

  /** A successful processParents logs its inter-site calls, then those of
      the replica-catalog half when there are inputs to look up. */
  lemma ParentsRunLog(cfg: Config, job: Job, parents: seq<Job>, rc: seq<Placement>, log: seq<RefinerCall>)
    requires ParentsRun(cfg, job, parents, rc, log).failure.None?
    ensures var inter := InterpoolFrom(cfg, job, parents, 0, InterSiteAcc([], [], rc)).state;
            var search := RCSearchFiles(job.inputFiles, ParentOutputs(parents));
            var log1 := log + InterSiteCalls(job, inter.local, inter.remote);
            ParentsRun(cfg, job, parents, rc, log).state.log
            == if search == [] then log1 else SearchRC(cfg, job, search, inter.rc, log1).state.log
  {
  }

  lemma SearchRCAppends(cfg: Config, job: Job, search: seq<PFile>, rc: seq<Placement>, log: seq<RefinerCall>)
    ensures var r := SearchRC(cfg, job, search, rc, log).state;
            && Appended(log, r.log)
            && r.job.level == job.level && r.job.name == job.name
            && r.job.siteHandle == job.siteHandle && r.job.stagingSite == job.stagingSite
            && r.job.outputFiles == job.outputFiles
    ensures var r := SearchRC(cfg, job, search, rc, log);
            var st := FilesFromRC(cfg, job, search, StageInAcc(job.inputFiles, [], [], rc)).state;
            r.state.log
            == if job.kind.Compute? && r.failure.None? && (st.local != [] || st.remote != [])
               then log + [AddStageIn(job.name, st.local, st.remote)]
               else log
  {
    if job.kind.Compute? {
      var r := FilesFromRC(cfg, job, search, StageInAcc(job.inputFiles, [], [], rc));
      assert Appended(log, log + StageInCalls(job, r.state.local, r.state.remote));
    }
  }

  lemma StageOutRunAppends(cfg: Config, outputSite: string, factory: Factory, job: Job, rc: seq<Placement>,
                           log: seq<RefinerCall>)
    ensures var r := StageOutRun(cfg, outputSite, factory, job, rc, log).state;
            Appended(log, r.log) && r.job == job
  {
  }

  /** One node only ever appends to the refiner's log. */
  lemma NodeRunAppends(cfg: Config, outputSite: Option<string>, area: Option<StageOutArea>, node: Node, w: World)
    requires NodeIn(node, |w.jobs|)
    requires IsStageOut(outputSite) ==> area.Some?
    ensures Appended(w.log, NodeRun(cfg, outputSite, area, node, w).state.log)
  {
    var job := w.jobs[node.job].(level := node.depth);
    var pp := ParentsRun(cfg, job, ParentJobs(w.jobs[node.job := job], node.parents), w.rc, w.log);
    ParentsRunAppends(cfg, job, ParentJobs(w.jobs[node.job := job], node.parents), w.rc, w.log);
    if pp.failure.None? && IsStageOut(outputSite) {
      var so := StageOutRun(cfg, outputSite.value, area.value.factory, pp.state.job, pp.state.rc, pp.state.log);
      StageOutRunAppends(cfg, outputSite.value, area.value.factory, pp.state.job, pp.state.rc, pp.state.log);
      AppendedTrans(w.log, pp.state.log, so.state.log);
    }
  }

  lemma {:induction false} NodesFromAppends(cfg: Config, outputSite: Option<string>, area: Option<StageOutArea>,
                                            nodes: seq<Node>, i: nat, w: World)
    requires i <= |nodes| && NodesIn(nodes, |w.jobs|)
    requires IsStageOut(outputSite) ==> area.Some?
    ensures Appended(w.log, NodesFrom(cfg, outputSite, area, nodes, i, w).state.log)
    decreases |nodes| - i
  {
    if i < |nodes| {
      var step := NodeRun(cfg, outputSite, area, nodes[i], w);
      NodeRunAppends(cfg, outputSite, area, nodes[i], w);
      if step.failure.None? {
        NodesFromAppends(cfg, outputSite, area, nodes, i + 1, step.state);
        AppendedTrans(w.log, step.state.log, NodesFrom(cfg, outputSite, area, nodes, i + 1, step.state).state.log);
      }
    }
  }

  lemma {:induction false} DeletedFromAppends(cfg: Config, outputSite: string, area: StageOutArea, i: nat, w: World)
    requires i <= |w.deleted|
    ensures Appended(w.log, DeletedFrom(cfg, outputSite, area, i, w).state.log)
    decreases |w.deleted| - i
  {
    if i < |w.deleted| {
      var job := PrepareDeleted(cfg.env, w.deleted[i]);
      var w1 := w.(deleted := w.deleted[i := job]);
      var d := DeletedFileTXFrom(cfg, area, outputSite, outputSite, job, 0, []);
      if d.Ok? {
        var w2 := w1.(log := w1.log + (if d.value != [] then [AddStageOut(job.name, d.value, true, true)] else []));
        DeletedFromAppends(cfg, outputSite, area, i + 1, w2);
        AppendedTrans(w.log, w2.log, DeletedFrom(cfg, outputSite, area, i + 1, w2).state.log);
      }
    }
  }

  /** The calls one deleted job makes: a stage-out on the submit host of
      the outputs it moves, when there are any. */
  function DeletedCall(cfg: Config, outputSite: string, area: StageOutArea, job: Job): seq<RefinerCall> {
    var moved := PrepareDeleted(cfg.env, job);
    match DeletedFileTXFrom(cfg, area, outputSite, outputSite, moved, 0, [])
    case Ok(batch) => if batch != [] then [AddStageOut(moved.name, batch, true, true)] else []
    case Fail(_) => []
  }

  /** The calls of the deleted jobs, one job after the other. */
  function DeletedCalls(cfg: Config, outputSite: string, area: StageOutArea, jobs: seq<Job>): seq<RefinerCall> {
    if jobs == [] then []
    else DeletedCall(cfg, outputSite, area, jobs[0]) + DeletedCalls(cfg, outputSite, area, jobs[1..])
  }

  /** Handling the deleted jobs from the `i`-th on appends, in their order,
      one stage-out per job whose batch is not empty, and nothing else. */
  lemma {:induction false} DeletedFromCalls(cfg: Config, outputSite: string, area: StageOutArea, i: nat, w: World)
    requires i <= |w.deleted|
    requires DeletedFrom(cfg, outputSite, area, i, w).failure.None?
    ensures DeletedFrom(cfg, outputSite, area, i, w).state.log
            == w.log + DeletedCalls(cfg, outputSite, area, w.deleted[i..])
    decreases |w.deleted| - i
  {
    if i < |w.deleted| {
      var job := PrepareDeleted(cfg.env, w.deleted[i]);
      var w1 := w.(deleted := w.deleted[i := job]);
      var d := DeletedFileTXFrom(cfg, area, outputSite, outputSite, job, 0, []);
      var call := if d.value != [] then [AddStageOut(job.name, d.value, true, true)] else [];
      var w2 := w1.(log := w1.log + call);
      DeletedFromCalls(cfg, outputSite, area, i + 1, w2);
      assert w2.deleted[i + 1..] == w.deleted[i..][1..];
      assert call == DeletedCall(cfg, outputSite, area, w.deleted[i]);
      assert DeletedCalls(cfg, outputSite, area, w.deleted[i..])
             == call + DeletedCalls(cfg, outputSite, area, w.deleted[i + 1..]);
    }
  }

  /** The refiner's log is append-only; a run that fails never tells the
      refiner it is done, and one that succeeds tells it exactly once, as
      its last call. */
  lemma TransferNodesEndsWithDone(cfg: Config, outputSite: Option<string>, area: Option<StageOutArea>,
                                  nodes: seq<Node>, w: World)
    requires NodesIn(nodes, |w.jobs|)
    requires IsStageOut(outputSite) ==> area.Some?
    ensures var r := TransferNodesRun(cfg, outputSite, area, nodes, w);
            && (r.failure.Some? ==> Appended(w.log, r.state.log))
            && (r.failure.None? ==>
                  && |r.state.log| > |w.log| && r.state.log[|r.state.log| - 1] == Done
                  && Appended(w.log, r.state.log[..|r.state.log| - 1]))
  {
    var walk := NodesFrom(cfg, outputSite, area, nodes, 0, w);
    NodesFromAppends(cfg, outputSite, area, nodes, 0, w);
    if walk.failure.None? {
      var r := if IsStageOut(outputSite) && walk.state.deleted != []
               then DeletedFrom(cfg, outputSite.value, area.value, 0, walk.state)
               else walk;
      if IsStageOut(outputSite) && walk.state.deleted != [] {
        DeletedFromAppends(cfg, outputSite.value, area.value, 0, walk.state);
      }
      AppendedTrans(w.log, walk.state.log, r.state.log);
      if r.failure.None? {
        assert (r.state.log + [Done])[..|r.state.log|] == r.state.log;
      }
    }
  }

  /** A node changes its own job and no other: that job takes the node's
      depth as its level and keeps its name, sites and outputs. */
  lemma NodeRunUpdatesOnlyItsJob(cfg: Config, outputSite: Option<string>, area: Option<StageOutArea>, node: Node,
                                 w: World)
    requires NodeIn(node, |w.jobs|)
    requires IsStageOut(outputSite) ==> area.Some?
    ensures var r := NodeRun(cfg, outputSite, area, node, w).state;
            && (forall j :: 0 <= j < |w.jobs| && j != node.job ==> r.jobs[j] == w.jobs[j])
            && r.jobs[node.job].level == node.depth
            && r.jobs[node.job].name == w.jobs[node.job].name
            && r.jobs[node.job].siteHandle == w.jobs[node.job].siteHandle
            && r.jobs[node.job].stagingSite == w.jobs[node.job].stagingSite
            && r.jobs[node.job].outputFiles == w.jobs[node.job].outputFiles
  {
    var job := w.jobs[node.job].(level := node.depth);
    var jobs1 := w.jobs[node.job := job];
    var pp := ParentsRun(cfg, job, ParentJobs(jobs1, node.parents), w.rc, w.log);
    ParentsRunAppends(cfg, job, ParentJobs(jobs1, node.parents), w.rc, w.log);
    var jobs2 := jobs1[node.job := pp.state.job];
    assert NodeRun(cfg, outputSite, area, node, w).state.jobs == jobs2;
  }

  /** A successful trackInTransientRC records one entry per output, in
      order, each under the job's own site at the URL of the file in the
      job's work directory as the chosen GET server of its staging site's
      scratch serves it. */
  lemma {:induction false} TrackRecordsEveryOutput(cfg: Config, job: Job, i: nat, rc: seq<Placement>)
    requires job.stagingSite in cfg.sites && i <= |job.outputFiles|
    requires TrackFrom(cfg, job, i, rc).failure.None?
    ensures var s := TrackFrom(cfg, job, i, rc).state;
            var server := ScratchServer(cfg.env, cfg.sites[job.stagingSite], GetOperations);
            && |s| == |rc| + |job.outputFiles| - i
            && s[..|rc|] == rc
            && (i < |job.outputFiles| ==> server.Some?)
            && forall k :: |rc| <= k < |s| ==>
                 && s[k].lfn == job.outputFiles[i + k - |rc|].lfn && s[k].site == job.siteHandle
                 && s[k].pfn == TransientURL(cfg.env, server.value, job, s[k].lfn)
    decreases |job.outputFiles| - i
  {
    if i < |job.outputFiles| {
      var server := ScratchServer(cfg.env, cfg.sites[job.stagingSite], GetOperations).value;
      var lfn := job.outputFiles[i].lfn;
      var rc1 := rc + [Placement(lfn, TransientURL(cfg.env, server, job, lfn), job.siteHandle)];
      TrackRecordsEveryOutput(cfg, job, i + 1, rc1);
      var s := TrackFrom(cfg, job, i + 1, rc1).state;
      assert s[..|rc|] == s[..|rc1|][..|rc|];
      assert s[|rc|] == s[..|rc1|][|rc|];
    }
  }

  /** trackInTransientRC fails exactly when the staging site is unknown, or
      when there is an output to record and no GET server to record it under. */
  lemma {:induction false} TrackFailsExactly(cfg: Config, job: Job, i: nat, rc: seq<Placement>)
    requires job.stagingSite in cfg.sites && i <= |job.outputFiles|
    ensures TrackFrom(cfg, job, i, rc).failure.Some?
            <==> i < |job.outputFiles| && ScratchServer(cfg.env, cfg.sites[job.stagingSite], GetOperations).None?
    ensures TrackFrom(cfg, job, i, rc).failure.Some? ==>
              TrackFrom(cfg, job, i, rc).failure == Some(NoFileServer(job.stagingSite, Get))
    decreases |job.outputFiles| - i
  {
    if i < |job.outputFiles| {
      var server := ScratchServer(cfg.env, cfg.sites[job.stagingSite], GetOperations);
      if server.Some? {
        var lfn := job.outputFiles[i].lfn;
        TrackFailsExactly(cfg, job, i + 1,
                          rc + [Placement(lfn, TransientURL(cfg.env, server.value, job, lfn), job.siteHandle)]);
      }
    }
  }

  /** Every deleted job that has been prepared has the level beyond any
      depth and the submit host as its site. */
  predicate PreparedUpTo(env: Env, before: seq<Job>, after: seq<Job>, i: nat) {
    && |before| == |after| && i <= |after|
    && (forall k :: 0 <= k < i ==> after[k] == PrepareDeleted(env, before[k]))
    && (forall k :: i <= k < |after| ==> after[k] == before[k])
  }

  lemma {:induction false} DeletedFromPrepares(cfg: Config, outputSite: string, area: StageOutArea,
                                               before: seq<Job>, i: nat, w: World)
    requires i <= |w.deleted| && PreparedUpTo(cfg.env, before, w.deleted, i)
    requires DeletedFrom(cfg, outputSite, area, i, w).failure.None?
    ensures PreparedUpTo(cfg.env, before, DeletedFrom(cfg, outputSite, area, i, w).state.deleted, |before|)
    decreases |w.deleted| - i
  {
    if i < |w.deleted| {
      var job := PrepareDeleted(cfg.env, w.deleted[i]);
      var w1 := w.(deleted := w.deleted[i := job]);
      var d := DeletedFileTXFrom(cfg, area, outputSite, outputSite, job, 0, []);
      var w2 := w1.(log := w1.log + (if d.value != [] then [AddStageOut(job.name, d.value, true, true)] else []));
      assert PreparedUpTo(cfg.env, before, w2.deleted, i + 1);
      DeletedFromPrepares(cfg, outputSite, area, before, i + 1, w2);
    }
  }

  /** After the deleted jobs are handled, each of them sits at the level
      beyond any depth on the submit host, under its own name. */
  lemma DeletedJobsMovedToSubmitHost(cfg: Config, outputSite: string, area: StageOutArea, w: World)
    requires DeletedFrom(cfg, outputSite, area, 0, w).failure.None?
    ensures var d := DeletedFrom(cfg, outputSite, area, 0, w).state.deleted;
            && |d| == |w.deleted|
            && forall k :: 0 <= k < |d| ==>
                 d[k].level == DeletedJobsLevel && d[k].siteHandle == LocalSite && d[k].name == w.deleted[k].name
  {
    DeletedFromPrepares(cfg, outputSite, area, w.deleted, 0, w);
  }

  /** A successful stage-out of a job records the exec URL of each of its
      outputs and hands the refiner one batch, whose descriptors follow the
      outputs that are not transient in both senses. */
  lemma StageOutVisitHandsOneBatch(cfg: Config, outputSite: string, factory: Factory, job: Job,
                                   rc: seq<Placement>, log: seq<RefinerCall>)
    requires StageOutRun(cfg, outputSite, factory, job, rc, log).failure.None?
    ensures var r := StageOutRun(cfg, outputSite, factory, job, rc, log).state;
            && r.job == job
            && |r.log| == |log| + 1 && r.log[..|log|] == log
            && r.log[|log|].AddStageOut? && r.log[|log|].job == job.name && !r.log[|log|].deleted
            && Lfns(r.log[|log|].batch) == StagedOutLfns(job.outputFiles)
            && (job.outputFiles != [] ==> ExecDirURL(cfg, job.stagingSite, outputSite).Ok?)
            && (ExecDirURL(cfg, job.stagingSite, outputSite).Ok? ==>
                  r.rc == rc + ExecPlacements(job, ExecDirURL(cfg, job.stagingSite, outputSite).value, 0))
  {
    var fs := ScratchServer(cfg.env, cfg.sites[job.stagingSite], PutOperations).value;
    var local := RunTransferOnLocalSite(cfg.adv, job.siteHandle, Some(fs.urlPrefix), StageOutJob);
    var acc := StageOutAcc([], rc);
    FileTXBatchFollowsOutputs(cfg, factory, job, outputSite, local, 0, acc);
    FileTXRecordsEveryOutput(cfg, factory, job, outputSite, local, 0, acc);
    assert job.outputFiles[0..] == job.outputFiles;
    assert Lfns([]) == [];
  }

  // ------------------------------------------------------------- the engine

  class TransferEngine {
    const cfg: Config
    const outputSite: Option<string>
    /** The output site's storage directory and layout, set up when there is an output site. */
    const area: Option<StageOutArea>
    var jobs: seq<Job>
    var deletedJobs: seq<Job>
    var transientRC: seq<Placement>
    var refinerLog: seq<RefinerCall>

    ghost predicate Valid()
    {
      IsStageOut(outputSite) ==> area.Some?
    }

    function State(): World
      reads this
    {
      World(jobs, deletedJobs, transientRC, refinerLog)
    }

    constructor (cfg: Config, outputSite: Option<string>, area: Option<StageOutArea>, jobs: seq<Job>,
                 deletedJobs: seq<Job>)
      requires IsStageOut(outputSite) ==> area.Some?
      ensures Valid()
      ensures this.cfg == cfg && this.outputSite == outputSite && this.area == area
      ensures State() == World(jobs, deletedJobs, [], [])
    {
      this.cfg := cfg;
      this.outputSite := outputSite;
      this.area := area;
      this.jobs := jobs;
      this.deletedJobs := deletedJobs;
      this.transientRC := [];
      this.refinerLog := [];
    }

    /** getFileTX: the stage-out descriptors of a job's outputs, each exec
        URL recorded in the transient catalog on the way. */
    method GetFileTX(destPool: string, job: Job, localTransfer: bool)
      returns (failure: Option<Error>, batch: seq<FileTransfer>)
      requires area.Some?
      modifies this
      ensures jobs == old(jobs) && deletedJobs == old(deletedJobs) && refinerLog == old(refinerLog)
      ensures Run(failure, StageOutAcc(batch, transientRC))
              == FileTXFrom(cfg, area.value.factory, job, destPool, localTransfer, 0, StageOutAcc([], old(transientRC)))
    {
      failure := None;
      batch := [];
      var i := 0;
      while i < |job.outputFiles|
        invariant 0 <= i <= |job.outputFiles|
        invariant jobs == old(jobs) && deletedJobs == old(deletedJobs) && refinerLog == old(refinerLog)
        invariant FileTXFrom(cfg, area.value.factory, job, destPool, localTransfer, i, StageOutAcc(batch, transientRC))
                  == FileTXFrom(cfg, area.value.factory, job, destPool, localTransfer, 0, StageOutAcc([], old(transientRC)))
      {
        var step := StageOutOutput(cfg, area.value.factory, job, destPool, localTransfer, job.outputFiles[i],
                                   StageOutAcc(batch, transientRC));
        batch, transientRC := step.state.batch, step.state.rc;
        if step.failure.Some? {
          failure := step.failure;
          return;
        }
        i := i + 1;
      }
    }

    /** One pass of the loop over a parent's outputs; a method of its own
        so that the loop's proof stays small. */
    method AddParentFile(job: Job, parent: Job, target: InterSiteTarget, pf: PFile, local0: seq<FileTransfer>,
                         remote0: seq<FileTransfer>)
      returns (failure: Option<Error>, local: seq<FileTransfer>, remote: seq<FileTransfer>)
      requires parent.stagingSite in cfg.sites
      modifies this
      ensures jobs == old(jobs) && deletedJobs == old(deletedJobs) && refinerLog == old(refinerLog)
      ensures Run(failure, InterSiteAcc(local, remote, transientRC))
              == InterSiteFile(cfg, job, parent, target, pf, InterSiteAcc(local0, remote0, old(transientRC)))
    {
      failure := None;
      local, remote := local0, remote0;
      if exists j :: 0 <= j < |job.inputFiles| && job.inputFiles[j].lfn == pf.lfn {
        var destURL := target.destURI + Separator + pf.lfn;
        transientRC := transientRC + [Placement(pf.lfn, destURL, job.stagingSite)];
        var dir := cfg.sites[parent.stagingSite].scratch;
        if dir.None? {
          failure := Some(NoScratchDirectory(parent.stagingSite));
          return;
        }
        var sources := CollectInterSiteSources(cfg.env, parent, ServersFor(dir.value, GetOperations), pf.lfn,
                                               target.thirdPartyURI + Separator + pf.lfn);
        var ft := FileTransfer(pf.lfn, parent.name, sources, [Endpoint(job.stagingSite, destURL)], None,
                               pf.size, Data, Mandatory, false, false, false);
        if ValidTransfer(ft) {
          if target.local {
            local := local + [ft];
          } else {
            remote := remote + [ft];
          }
        }
      }
    }

    /** The outputs of one parent that the job reads, moved to the job's staging site. */
    method AddParentFiles(job: Job, parent: Job, target: InterSiteTarget, local0: seq<FileTransfer>,
                          remote0: seq<FileTransfer>)
      returns (failure: Option<Error>, local: seq<FileTransfer>, remote: seq<FileTransfer>)
      requires parent.stagingSite in cfg.sites
      modifies this
      ensures jobs == old(jobs) && deletedJobs == old(deletedJobs) && refinerLog == old(refinerLog)
      ensures Run(failure, InterSiteAcc(local, remote, transientRC))
              == InterSiteFilesFrom(cfg, job, parent, target, 0, InterSiteAcc(local0, remote0, old(transientRC)))
    {
      failure := None;
      local, remote := local0, remote0;
      var k := 0;
      while k < |parent.outputFiles|
        invariant 0 <= k <= |parent.outputFiles| && failure.None?
        invariant jobs == old(jobs) && deletedJobs == old(deletedJobs) && refinerLog == old(refinerLog)
        invariant InterSiteFilesFrom(cfg, job, parent, target, k, InterSiteAcc(local, remote, transientRC))
                  == InterSiteFilesFrom(cfg, job, parent, target, 0, InterSiteAcc(local0, remote0, old(transientRC)))
      {
        ghost var acc := InterSiteAcc(local, remote, transientRC);
        failure, local, remote := AddParentFile(job, parent, target, parent.outputFiles[k], local, remote);
        if failure.Some? {
          assert InterSiteFilesFrom(cfg, job, parent, target, k, acc) == Run(failure, InterSiteAcc(local, remote, transientRC));
          return;
        }
        k := k + 1;
      }
    }

    /** getInterpoolFileTX: the parents' outputs the job reads, from every
        parent on another staging site, split by where the transfers run. */
    method GetInterpoolFileTX(job: Job, parents: seq<Job>)
      returns (failure: Option<Error>, local: seq<FileTransfer>, remote: seq<FileTransfer>)
      modifies this
      ensures jobs == old(jobs) && deletedJobs == old(deletedJobs) && refinerLog == old(refinerLog)
      ensures Run(failure, InterSiteAcc(local, remote, transientRC))
              == InterpoolFrom(cfg, job, parents, 0, InterSiteAcc([], [], old(transientRC)))
    {
      failure := None;
      local, remote := [], [];
      var i := 0;
      while i < |parents|
        invariant 0 <= i <= |parents|
        invariant jobs == old(jobs) && deletedJobs == old(deletedJobs) && refinerLog == old(refinerLog)
        invariant failure.None?
        invariant InterpoolFrom(cfg, job, parents, i, InterSiteAcc(local, remote, transientRC))
                  == InterpoolFrom(cfg, job, parents, 0, InterSiteAcc([], [], old(transientRC)))
      {
        var parent := parents[i];
        ghost var acc := InterSiteAcc(local, remote, transientRC);
        if parent.stagingSite !in cfg.sites {
          failure := Some(SiteNotFound(parent.stagingSite));
          assert InterSiteParent(cfg, job, parent, acc) == Run(failure, acc);
          return;
        }
        if !EqualsIgnoreCase(parent.stagingSite, job.stagingSite) {
          var target := InterSiteDestination(cfg, job);
          if target.Fail? {
            failure := Some(target.error);
            assert InterSiteParent(cfg, job, parent, acc) == Run(failure, acc);
            return;
          }
          failure, local, remote := AddParentFiles(job, parent, target.value, local, remote);
          assert InterSiteParent(cfg, job, parent, acc) == Run(failure, InterSiteAcc(local, remote, transientRC));
          if failure.Some? {
            return;
          }
        } else {
          assert InterSiteParent(cfg, job, parent, acc) == Run(None, acc);
        }
        i := i + 1;
      }
    }

    /** getFilesFromRC for the ordinary job at `k`: optional files without a
        replica leave its inputs; the others are staged in. */
    method GetFilesFromRC(k: nat, search: seq<PFile>) returns (failure: Option<Error>)
      requires k < |jobs| && jobs[k].kind.Compute?
      modifies this
      ensures |jobs| == |old(jobs)| && jobs == old(jobs)[k := jobs[k]] && deletedJobs == old(deletedJobs)
      ensures Run(failure, Visit(jobs[k], transientRC, refinerLog))
              == SearchRC(cfg, old(jobs[k]), search, old(transientRC), old(refinerLog))
    {
      var job := jobs[k];
      var dirs := StageInSetup(cfg, job);
      if dirs.Fail? {
        return Some(dirs.error);
      }
      var local, remote := [], [];
      var i := 0;
      while i < |search|
        invariant 0 <= i <= |search|
        invariant |jobs| == |old(jobs)| && jobs == old(jobs)[k := jobs[k]] && deletedJobs == old(deletedJobs)
        invariant refinerLog == old(refinerLog)
        invariant jobs[k] == job.(inputFiles := jobs[k].inputFiles)
        invariant StageInFrom(cfg, job, dirs.value, search, i, StageInAcc(jobs[k].inputFiles, local, remote, transientRC))
                  == StageInFrom(cfg, job, dirs.value, search, 0, StageInAcc(job.inputFiles, [], [], old(transientRC)))
      {
        var pf := search[i];
        var step := StageInOne(job, dirs.value, pf, StageInAcc(jobs[k].inputFiles, local, remote, transientRC));
        jobs := jobs[k := jobs[k].(inputFiles := step.state.inputs)];
        transientRC := step.state.rc;
        local, remote := step.state.local, step.state.remote;
        if step.failure.Some? {
          return step.failure;
        }
        i := i + 1;
      }
      assert FilesFromRC(cfg, job, search, StageInAcc(job.inputFiles, [], [], old(transientRC)))
             == Run(None, StageInAcc(jobs[k].inputFiles, local, remote, transientRC));
      if local != [] || remote != [] {
        refinerLog := refinerLog + [AddStageIn(job.name, local, remote)];
      }
      assert refinerLog == old(refinerLog) + StageInCalls(job, local, remote);
      failure := None;
    }

    /** One file of getFilesFromRC; a method of its own, apart from
        `StageInFile`, so that the loop's proof stays small. */
    method StageInOne(job: Job, dirs: StageInDirs, pf: PFile, acc: StageInAcc) returns (r: Run<StageInAcc>)
      ensures r == StageInFile(cfg, job, dirs, pf, acc)
    {
      if pf.lfn !in cfg.catalog {
        if pf.optional {
          return Run(None, acc.(inputs := RemoveLfn(acc.inputs, pf.lfn)));
        }
        return Run(Some(NoReplica(pf.lfn)), acc);
      }
      var selected := cfg.env.selectReplica(cfg.catalog[pf.lfn], job.siteHandle, dirs.local);
      var linked := cfg.useSymLinks && selected.site == job.stagingSite;
      if linked {
        selected := ReplaceSourceProtocolFromURL(cfg.srm, cfg.env.urlPath, selected);
      }
      var last := LastIndexOf(selected.pfn, '/');
      if last < 0 {
        return Run(Some(MalformedURL(selected.pfn)), acc);
      }
      var destDir := if linked then ReplaceProtocolFromURL(cfg.env.urlPath, dirs.destDir) else dirs.destDir;
      var destURL := destDir + Separator + pf.lfn;
      if AlreadyInPlace(cfg, job, dirs, pf.lfn, selected, last) {
        return Run(None, acc);
      }
      var acc1 := acc.(rc := acc.rc + [Placement(pf.lfn, dirs.dDirURL + Separator + pf.lfn, job.stagingSite)]);
      var ft := FileTransfer(pf.lfn, job.logicalName, [Endpoint(selected.site, selected.pfn)],
                             [Endpoint(job.stagingSite, destURL)], None,
                             pf.size, pf.ftype, pf.transferFlag, false, false, false);
      if linked || !dirs.local {
        r := Run(None, acc1.(remote := acc1.remote + [ft]));
      } else {
        r := Run(None, acc1.(local := acc1.local + [ft]));
      }
    }

    /** getFilesFromRC for the DAG or DAX job at `k`. */
    method GetSubworkflowFromRC(k: nat) returns (failure: Option<Error>)
      requires k < |jobs| && !jobs[k].kind.Compute?
      modifies this
      ensures |jobs| == |old(jobs)| && jobs == old(jobs)[k := jobs[k]] && deletedJobs == old(deletedJobs)
      ensures transientRC == old(transientRC) && refinerLog == old(refinerLog)
      ensures Run(failure, jobs[k]) == if old(jobs[k]).kind.DAGJob? then DAGFromRC(cfg, old(jobs[k]))
                                       else DAXFromRC(cfg, old(jobs[k]))
    {
      var job := jobs[k];
      jobs := jobs[k := job.(inputFiles := [])];
      var lfn := if job.kind.DAGJob? then job.kind.dagLFN else job.kind.daxLFN;
      var path := SubworkflowPath(cfg, job, lfn);
      if path.Fail? {
        return Some(path.error);
      }
      if job.kind.DAGJob? {
        jobs := jobs[k := jobs[k].(dagFile := Some(path.value), directory := job.directoryVariable,
                                   directoryVariable := None)];
      } else {
        jobs := jobs[k := jobs[k].(arguments := job.arguments + " --dax " + path.value)];
      }
      failure := None;
    }

    /** processParents for the job at `k`, whose parents are `parents`. */
    method ProcessParents(k: nat, parents: seq<Job>) returns (failure: Option<Error>)
      requires k < |jobs|
      modifies this
      ensures |jobs| == |old(jobs)| && jobs == old(jobs)[k := jobs[k]] && deletedJobs == old(deletedJobs)
      ensures Run(failure, Visit(jobs[k], transientRC, refinerLog))
              == ParentsRun(cfg, old(jobs[k]), parents, old(transientRC), old(refinerLog))
    {
      var job := jobs[k];
      var parentOutputs := GetOutputFiles(parents);
      var local, remote;
      failure, local, remote := GetInterpoolFileTX(job, parents);
      if failure.Some? {
        return;
      }
      if local != [] {
        refinerLog := refinerLog + [AddInterSite(job.name, local, true)];
      }
      if remote != [] {
        refinerLog := refinerLog + [AddInterSite(job.name, remote, false)];
      }
      assert refinerLog == old(refinerLog) + InterSiteCalls(job, local, remote);
      var search := CollectRCSearchFiles(job.inputFiles, parentOutputs);
      if search != [] {
        if job.kind.Compute? {
          failure := GetFilesFromRC(k, search);
        } else {
          failure := GetSubworkflowFromRC(k);
        }
      }
    }

    /** trackInTransientRC for the job at `k`. */
    method TrackInTransientRC(k: nat) returns (failure: Option<Error>)
      requires k < |jobs|
      modifies this
      ensures jobs == old(jobs) && deletedJobs == old(deletedJobs) && refinerLog == old(refinerLog)
      ensures Run(failure, transientRC) == TrackRun(cfg, jobs[k], old(transientRC))
    {
      var job := jobs[k];
      if job.stagingSite !in cfg.sites {
        return Some(SiteNotFound(job.stagingSite));
      }
      var i := 0;
      while i < |job.outputFiles|
        invariant 0 <= i <= |job.outputFiles|
        invariant jobs == old(jobs) && deletedJobs == old(deletedJobs) && refinerLog == old(refinerLog)
        invariant TrackFrom(cfg, job, i, transientRC) == TrackFrom(cfg, job, 0, old(transientRC))
      {
        var lfn := job.outputFiles[i].lfn;
        var server := ScratchServer(cfg.env, cfg.sites[job.stagingSite], GetOperations);
        if server.None? {
          return Some(NoFileServer(job.stagingSite, Get));
        }
        transientRC := transientRC + [Placement(lfn, TransientURL(cfg.env, server.value, job, lfn), job.siteHandle)];
        i := i + 1;
      }
      failure := None;
    }

    /** The stage-out of the job at `k` to the output site. */
    method StageOutNode(k: nat) returns (failure: Option<Error>)
      requires Valid() && k < |jobs| && IsStageOut(outputSite)
      modifies this
      ensures jobs == old(jobs) && deletedJobs == old(deletedJobs)
      ensures Run(failure, Visit(jobs[k], transientRC, refinerLog))
              == StageOutRun(cfg, outputSite.value, area.value.factory, jobs[k], old(transientRC), old(refinerLog))
    {
      var job := jobs[k];
      if job.stagingSite !in cfg.sites {
        return Some(SiteNotFound(job.siteHandle));
      }
      var fs := ScratchServer(cfg.env, cfg.sites[job.stagingSite], PutOperations);
      if fs.None? {
        return Some(NoFileServer(job.stagingSite, Put));
      }
      var local := RunTransferOnLocalSite(cfg.adv, job.siteHandle, Some(fs.value.urlPrefix), StageOutJob);
      var batch;
      failure, batch := GetFileTX(outputSite.value, job, local);
      if failure.None? {
        refinerLog := refinerLog + [AddStageOut(job.name, batch, local, false)];
      }
    }

    /** One node of the walk. */
    method VisitNode(node: Node) returns (failure: Option<Error>)
      requires Valid() && NodeIn(node, |jobs|)
      modifies this
      ensures Run(failure, State()) == NodeRun(cfg, outputSite, area, node, old(State()))
    {
      jobs := jobs[node.job := jobs[node.job].(level := node.depth)];
      var parents := ParentJobs(jobs, node.parents);
      failure := ProcessParents(node.job, parents);
      if failure.Some? {
        return;
      }
      if IsStageOut(outputSite) {
        failure := StageOutNode(node.job);
      } else {
        failure := TrackInTransientRC(node.job);
      }
    }

    /** The stage-out of the deleted jobs' outputs. */
    method StageOutDeletedJobs() returns (failure: Option<Error>)
      requires Valid() && IsStageOut(outputSite)
      modifies this
      ensures Run(failure, State()) == DeletedFrom(cfg, outputSite.value, area.value, 0, old(State()))
    {
      var i := 0;
      while i < |deletedJobs|
        invariant 0 <= i <= |deletedJobs|
        invariant DeletedFrom(cfg, outputSite.value, area.value, i, State())
                  == DeletedFrom(cfg, outputSite.value, area.value, 0, old(State()))
      {
        ghost var w := State();
        var job := PrepareDeleted(cfg.env, deletedJobs[i]);
        deletedJobs := deletedJobs[i := job];
        var batch := GetDeletedFileTX(cfg, area.value, outputSite.value, outputSite.value, job);
        if batch.Fail? {
          return Some(batch.error);
        }
        if batch.value != [] {
          refinerLog := refinerLog + [AddStageOut(job.name, batch.value, true, true)];
        }
        assert State() == w.(deleted := w.deleted[i := job],
                             log := w.log + (if batch.value != [] then [AddStageOut(job.name, batch.value, true, true)] else []));
        i := i + 1;
      }
      failure := None;
    }

    /** The walk over the graph in the given order. */
    method WalkNodes(nodes: seq<Node>) returns (failure: Option<Error>)
      requires Valid() && NodesIn(nodes, |jobs|)
      modifies this
      ensures Run(failure, State()) == NodesFrom(cfg, outputSite, area, nodes, 0, old(State()))
    {
      var i := 0;
      while i < |nodes|
        invariant 0 <= i <= |nodes| && |jobs| == |old(jobs)|
        invariant NodesFrom(cfg, outputSite, area, nodes, i, State())
                  == NodesFrom(cfg, outputSite, area, nodes, 0, old(State()))
      {
        failure := VisitNode(nodes[i]);
        if failure.Some? {
          return;
        }
        i := i + 1;
      }
      failure := None;
    }

    /** addTransferNodes: the walk, the deleted jobs when there is an
        output site, and the call telling the refiner it is done. */
    method AddTransferNodes(nodes: seq<Node>) returns (failure: Option<Error>)
      requires Valid() && NodesIn(nodes, |jobs|)
      modifies this
      ensures Run(failure, State()) == TransferNodesRun(cfg, outputSite, area, nodes, old(State()))
    {
      failure := WalkNodes(nodes);
      if failure.Some? {
        return;
      }
      if IsStageOut(outputSite) && deletedJobs != [] {
        failure := StageOutDeletedJobs();
        if failure.Some? {
          return;
        }
      }
      refinerLog := refinerLog + [Done];
      failure := None;
    }
  }

  /** The engine's construction: the SRM map from the properties, then the
      output site's layout; either can abort. */
  method NewTransferEngine(cfg: Config, srmProperties: map<string, string>, outputSite: Option<string>,
                           deepStorage: bool, addOn: string, jobs: seq<Job>, deletedJobs: seq<Job>)
    returns (r: Result<TransferEngine>)
    ensures r.Ok? ==> fresh(r.value) && r.value.Valid()
    ensures r.Ok? ==> r.value.cfg == cfg.(srm := r.value.cfg.srm) && r.value.outputSite == outputSite
    ensures r.Ok? ==> r.value.State() == World(jobs, deletedJobs, [], [])
    ensures r.Ok? ==> forall site :: site in r.value.cfg.srm <==>
              (exists k :: IsServiceUrlKey(srmProperties, site, k)) && (exists k :: IsMountPointKey(srmProperties, site, k))
    ensures (exists key :: key in srmProperties && '.' !in key) ==> r.Fail? && r.error.MalformedProperty?
    ensures r.Ok? && IsStageOut(outputSite) ==>
              && outputSite.value in cfg.sites && cfg.sites[outputSite.value].storage.Some?
              && r.value.area == Some(StageOutArea(cfg.sites[outputSite.value].storage.value,
                                                   if deepStorage then Hashed(addOn, |StageOutFiles(jobs)|)
                                                   else Flat(addOn)))
  {
    var srm := ConstructSiteToSRMServerMap(srmProperties);
    if srm.Fail? {
      return Fail(srm.error);
    }
    var area := InitializeStageOutSiteDirectoryFactory(cfg.sites, outputSite, deepStorage, addOn, jobs);
    if area.Fail? {
      return Fail(area.error);
    }
    var engine := new TransferEngine(cfg.(srm := srm.value), outputSite, area.value, jobs, deletedJobs);
    r := Ok(engine);
  }
}
