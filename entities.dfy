/** The entities the transfer engine works on: jobs and their logical files,
    the site store, the replica catalog, transfer descriptors, and the
    records it leaves behind (transient placements and refiner calls). */
module Entities {

  datatype Option<T> = None | Some(value: T)

  /** The fatal conditions that abort a planning run. */
  datatype Error =
    | SiteNotFound(site: string)
    | NoFileServer(site: string, op: Operation)
    | NoStorageDirectory(site: string)
    | NoScratchDirectory(site: string)
    | NoPutServers(site: string)
    | NoGetServers(site: string)
    | NoReplica(lfn: string)
    | InvalidSubworkflowURL(pfn: string)
    | AllocationFailed(lfn: string)
    | MalformedURL(pfn: string)
    | MalformedProperty(key: string)

  datatype Result<T> = Ok(value: T) | Fail(error: Error)

  /** A computation that may abort, together with the state it had reached:
      the engine has no rollback, so effects made before an abort stay. */
  datatype Run<S> = Run(failure: Option<Error>, state: S)

  // ---------------------------------------------------------------- sites

  datatype Operation = Get | Put | All

  /** The operations a server must support to be used for writing, resp. reading. */
  const PutOperations: seq<Operation> := [Put, All]
  const GetOperations: seq<Operation> := [Get, All]

  /** A file server: URL prefix (scheme and host), mount point, and full URL. */
  datatype FileServer = FileServer(urlPrefix: string, mountPoint: string, url: string)

  /** A directory of a site, with its file servers keyed by operation. */
  datatype Directory = Directory(servers: map<Operation, seq<FileServer>>)

  /** The servers of `d` for each of `ops`, in the order of `ops`. */
  function ServersFor(d: Directory, ops: seq<Operation>): seq<FileServer>
  {
    if ops == [] then []
    else (if ops[0] in d.servers then d.servers[ops[0]] else []) + ServersFor(d, ops[1..])
  }

  /** A site entry: its shared-scratch directory and its head-node storage directory. */
  datatype Site = Site(scratch: Option<Directory>, storage: Option<Directory>)

  // ------------------------------------------------------ replica catalog

  datatype Replica = Replica(pfn: string, site: string, attributes: map<string, string>)

  // ------------------------------------------------------- files and jobs

  datatype TransferFlag = Mandatory | Optional | Never
  datatype FileType = Data | Executable | Other

  /** A logical file with its size, type, transfer mode and transiency flags. */
  datatype PFile = PFile(
    lfn: string,
    size: int,
    ftype: FileType,
    transferFlag: TransferFlag,
    transientTransfer: bool,
    transientReg: bool,
    optional: bool)

  /** Ordinary jobs, and the two sub-workflow kinds whose input is a workflow description. */
  datatype JobKind = Compute | DAGJob(dagLFN: string) | DAXJob(daxLFN: string)

  datatype Job = Job(
    name: string,
    logicalName: string,
    siteHandle: string,
    stagingSite: string,
    level: int,
    inputFiles: seq<PFile>,
    outputFiles: seq<PFile>,
    remoteInitialDir: Option<string>,
    kind: JobKind,
    dagFile: Option<string>,
    directory: Option<string>,
    directoryVariable: Option<string>,
    arguments: string)

  predicate HasLfn(files: seq<PFile>, lfn: string) {
    exists i :: 0 <= i < |files| && files[i].lfn == lfn
  }

  /** Removal from a job's file set, where files are identified by logical name. */
  function RemoveLfn(files: seq<PFile>, lfn: string): (r: seq<PFile>)
    ensures forall pf :: pf in r <==> pf in files && pf.lfn != lfn
    ensures |r| <= |files|
  {
    if files == [] then []
    else (if files[0].lfn == lfn then [] else [files[0]]) + RemoveLfn(files[1..], lfn)
  }

  // -------------------------------------------------- transfer descriptors

  datatype Endpoint = Endpoint(site: string, url: string)

  datatype FileTransfer = FileTransfer(
    lfn: string,
    job: string,
    sources: seq<Endpoint>,
    dests: seq<Endpoint>,
    registrationURL: Option<string>,
    size: int,
    ftype: FileType,
    transferFlag: TransferFlag,
    transientTransfer: bool,
    transientReg: bool,
    optional: bool)

  /** A descriptor is usable once it has a source and a destination. */
  predicate ValidTransfer(ft: FileTransfer) {
    ft.sources != [] && ft.dests != []
  }

  // ------------------------------------------------------ side effects

  /** An insertion into the transient replica catalog. */
  datatype Placement = Placement(lfn: string, pfn: string, site: string)

  /** A call made on the transfer refiner. */
  datatype RefinerCall =
    | AddInterSite(job: string, batch: seq<FileTransfer>, local: bool)
    | AddStageIn(job: string, localBatch: seq<FileTransfer>, remoteBatch: seq<FileTransfer>)
    | AddStageOut(job: string, batch: seq<FileTransfer>, local: bool, deleted: bool)
    | Done

  // ------------------------------------------------------ collaborators

  datatype TransferType = StageInJob | StageOutJob | InterPoolJob

  /** The refiner's two advisories on where transfer jobs run. */
  datatype Advisories = Advisories(
    hasPreference: bool,
    prefersLocal: TransferType -> bool,
    runRemotely: (string, TransferType) -> bool)

  /** The output-site layout: flat, or hashed and sized to the number of files staged out. */
  datatype Factory = Flat(addOn: string) | Hashed(addOn: string, totalFiles: nat)

  /** The collaborators whose behaviour is not part of this model. */
  datatype Env = Env(
    externalWorkDir: (FileServer, string) -> string,
    internalWorkDir: (string, Option<string>) -> string,
    urlPath: string -> string,
    pick: seq<FileServer> -> nat,
    selectReplica: (seq<Replica>, string, bool) -> Replica,
    selectReplicas: (seq<Replica>, string, bool) -> seq<Replica>,
    createFile: (Factory, string) -> Option<string>,
    stagingOverride: string -> Option<string>,
    sameCanonicalPath: (string, string) -> bool)

  /** An SRM service URL and the mount point it corresponds to. */
  datatype SrmServer = SrmServer(serviceURL: string, mountPoint: string)

  /** Everything the engine reads but never changes during a run. */
  datatype Config = Config(
    sites: map<string, Site>,
    catalog: map<string, seq<Replica>>,
    srm: map<string, SrmServer>,
    useSymLinks: bool,
    adv: Advisories,
    env: Env)

  /** The output site's storage directory and the layout used on it. */
  datatype StageOutArea = StageOutArea(directory: Directory, factory: Factory)
}
