# TransferEngine model

A Dafny model of the transfer engine of the Pegasus workflow planner
(`TransferEngine.java`). The planner has already mapped the abstract
workflow's jobs to sites. The engine then walks the workflow graph and,
job by job, works out which data movements the job needs:

- **Inter-site transfers.** Outputs of a parent whose staging site
  differs from the job's are moved from the parent's scratch to the
  job's scratch.
- **Stage-in.** The job's inputs that no parent produces are looked up
  in the replica catalog. If one is already in place, it is skipped.
  Otherwise it is staged to the job's staging site, or symlinked there
  when the chosen replica is on that site and symlinks are enabled.
- **Stage-out or tracking.** When an output site is set, the job's
  outputs are staged out to that site's storage directory. Otherwise
  they are only recorded in the transient replica catalog.

When there is an output site, the outputs of jobs removed by workflow
reduction are then moved to it from where the replica catalog says they
are. Finally the refiner is told that the engine is done. Each transfer
is described by a descriptor: a logical file with its source and
destination URLs, and the URL under which it is registered. Batches of
descriptors are handed to the transfer refiner, which turns them into
transfer jobs. The transient replica catalog records where intermediate
files will be: the exec URL of each staged-out output, the destination
of each inter-site transfer, the third-party URL of each staged-in file
and, when there is no output site, each output's URL on its staging
site.

The model is made of these modules, one file each:

| module | file | what it holds |
|---|---|---|
| `Text` | `text.dfy` | The string operations the engine relies on: prefixes, suffixes, ASCII case-insensitive equality, index search and trimming. |
| `Entities` | `entities.dfy` | Jobs and their logical files, sites, directories and file servers, replica-catalog entries, transfer descriptors, and the errors that abort a planning run. Collaborators outside the engine are reached through `Env` and `Advisories`. |
| `Urls` | `urls.dfy` | Where transfer jobs run, the staging site, the `file:`/`symlink:` URL rewrites, the SRM service-URL-to-mount-point map, and URLs on the output site. |
| `StageOut` | `stage_out.dfy` | The stage-out descriptor of one output, including the walk over the output site's PUT servers. Also the stage-out of a job's outputs and the set-up of the output site's file layout. |
| `InterSite` | `inter_site.dfy` | Transfers from parents on other staging sites, and the split of a job's inputs into parent outputs and files to look up in the catalog. |
| `StageIn` | `stage_in.dfy` | Stage-in from the replica catalog for ordinary jobs, and resolution of the description file of DAG and DAX sub-workflow jobs. |
| `Deleted` | `deleted.dfy` | Stage-out of the outputs of jobs removed by reduction. |
| `Engine` | `engine.dfy` | The walk over the graph: `TransferEngine`, a class over the job table, the transient catalog and the refiner's call log. |

The parts of the engine that work step by step are class methods or
methods with loops. Each is proved equal to a specification function over
values. The engine has no rollback, so a run that aborts keeps the
effects it made before the abort. The specification functions therefore
return a `Run`: a failure, if any, and the state reached. The properties
the engine promises are lemmas about these functions.

## Model

| member | source | states |
|---|---|---|
| `Entities.RemoveLfn` | src/edu/isi/pegasus/planner/refiner/TransferEngine.java:1236 | Removing a file from a job's file set keeps exactly the files with another logical name. |
| `Urls.SelectFileServer` | src/edu/isi/pegasus/planner/refiner/TransferEngine.java:1593-1601 | A directory yields no server exactly when it has none for the requested operations. Any server it yields is one of those. |
| `Urls.ScratchServer` | src/edu/isi/pegasus/planner/refiner/TransferEngine.java:730-734 | A site's scratch server for the operations exists exactly when the site has a scratch directory with a server for them, and is one of those servers. |
| `Urls.RunTransferOnLocalSite` | src/edu/isi/pegasus/planner/refiner/TransferEngine.java:275-303 | A transfer runs on the submit host exactly when any of these holds: the site is `local`; the refiner states a preference and it prefers local; or the refiner states none, does not ask for a remote run, and the destination is not a `file:` URL. |
| `Urls.GetStagingSite` | src/edu/isi/pegasus/planner/refiner/TransferEngine.java:505-508 | The staging site is the one configured for the job's site, or the job's own site when none is configured. |
| `Urls.ReplaceProtocolFromURL` | src/edu/isi/pegasus/planner/refiner/TransferEngine.java:1474-1495 | The result is a `symlink:` URL. A `file:` URL keeps everything after its scheme; any other URL becomes `symlink://` followed by its path. |
| `Urls.SymlinkRewriteInvertible` | src/edu/isi/pegasus/planner/refiner/TransferEngine.java:1478-1486 | For a `file:` URL, swapping the scheme back after the symlink rewrite gives back the original URL. |
| `Urls.ReplaceSourceProtocolFromURL` | src/edu/isi/pegasus/planner/refiner/TransferEngine.java:1412-1463 | The rewrite keeps the replica's site and attributes and always yields a `file:` locator. A `file:` replica is returned unchanged. A locator under its site's SRM service URL is mapped onto the mount point. Any other locator becomes `file://` followed by its path. |
| `Urls.ReplaceSourceProtocolIdempotent` | src/edu/isi/pegasus/planner/refiner/TransferEngine.java:1417-1419 | Rewriting an already rewritten replica changes nothing. |
| `Urls.ClassifyKey` | src/edu/isi/pegasus/planner/refiner/TransferEngine.java:1527-1534 | An SRM property key is malformed exactly when it contains no `.`, which is where the site name would end. |
| `Urls.ConstructSiteToSRMServerMap` | src/edu/isi/pegasus/planner/refiner/TransferEngine.java:1515-1557 | Construction fails exactly when some key has no `.`, and the error names such a key. Otherwise a site is in the map exactly when it has both a service-URL key and a mount-point key, and its entry takes the values of such keys. |
| `Urls.SplitSrmProperties` | src/edu/isi/pegasus/planner/refiner/TransferEngine.java:1524-1535 | The same failure condition as `ConstructSiteToSRMServerMap`. On success, the service-URL map holds exactly the sites that have a service-URL key, with that key's value. The mount-point map does the same for mount-point keys. |
| `Urls.MergeSrmMaps` | src/edu/isi/pegasus/planner/refiner/TransferEngine.java:1538-1551 | The merged map holds exactly the sites present in both maps. Each pairs that site's service URL with its mount point. |
| `Urls.StageoutURL` | src/edu/isi/pegasus/planner/refiner/TransferEngine.java:1618-1629 | The URL starts with the server's URL, then a separator, and ends with the factory's path. A separator is inserted only when the path does not start with one. |
| `Urls.URLOnStageoutSite` | src/edu/isi/pegasus/planner/refiner/TransferEngine.java:1618-1635 | The output-site URL of a file fails exactly when the factory cannot allocate a path for it. Otherwise it is the server's URL joined to that path. |
| `Urls.URLOnStageoutDirectory` | src/edu/isi/pegasus/planner/refiner/TransferEngine.java:1593-1605 | With no server for the operation the call fails, naming the output site. With a server but no path the factory can allocate, it fails naming the file. It succeeds exactly when there is a server and a path, and the URL is then the joined URL on one of the directory's servers for the operation. |
| `Urls.RegistrationURL` | src/edu/isi/pegasus/planner/refiner/TransferEngine.java:845-867 | Without a GET server the call fails, naming the site. With one but no path the factory can allocate, it fails naming the file. It succeeds exactly when both exist, and the registration URL is then the joined URL on the first GET server. |
| `StageOut.ExecDirURL` | src/edu/isi/pegasus/planner/refiner/TransferEngine.java:719-739 | The exec directory is found only when both sites are known. An unknown staging site is reported first, then an unknown destination site, then a staging site without a PUT scratch server. Otherwise the directory is the chosen PUT server's URL followed by the staging site's external work directory. |
| `StageOut.StagingExecURL` | src/edu/isi/pegasus/planner/refiner/TransferEngine.java:735-739 | The exec URL exists exactly when the exec directory does. It is that directory, a separator and the file name; otherwise the error is the directory's. |
| `StageOut.FirstMatch` | src/edu/isi/pegasus/planner/refiner/TransferEngine.java:805-822 | The index of the first PUT URL equal to the exec URL, ignoring case, or the number of URLs when there is none. |
| `StageOut.PutURLs` | src/edu/isi/pegasus/planner/refiner/TransferEngine.java:805-810 | There is one output-site URL per PUT server, in server order. |
| `StageOut.WalkFrom` | src/edu/isi/pegasus/planner/refiner/TransferEngine.java:805-827 | The walk over the PUT URLs produces at least one destination. When it stops at a match, the last destination is the exec URL on the staging site. |
| `StageOut.PutServerWalk` | src/edu/isi/pegasus/planner/refiner/TransferEngine.java:794-830 | On success the descriptor has destinations and a registration URL, and nothing else of the base descriptor changes apart from the transfer flag. A failure is either an unallocatable path or a missing GET server. |
| `StageOut.WalkFromFirstMatch` | src/edu/isi/pegasus/planner/refiner/TransferEngine.java:805-827 | The walk adds a destination for each PUT URL before the first match. If there is a match, it adds the exec URL and stops there. |
| `StageOut.DescriptorFromExec` | src/edu/isi/pegasus/planner/refiner/TransferEngine.java:746-830 | An output gets no descriptor exactly when it is transient for both transfer and registration. Any descriptor it gets is valid, belongs to the file and the job, has one source on the staging site, and has a registration URL. That source is the exec URL when the transfer is transient or runs on the submit host, and otherwise the `file://` URL of the file in the staging site's internal work directory. An output that is not transient for transfer aborts when the output site has no storage directory, or no PUT server there. |
| `StageOut.WalkPutServers` | src/edu/isi/pegasus/planner/refiner/TransferEngine.java:805-830 | The loop over the PUT servers builds the same descriptor as the walk. |
| `StageOut.BuildStageOutDescriptor` | src/edu/isi/pegasus/planner/refiner/TransferEngine.java:746-833 | The method builds the descriptor `DescriptorFromExec` specifies. |
| `StageOut.TransientTransferStaysOnStagingSite` | src/edu/isi/pegasus/planner/refiner/TransferEngine.java:754-763 | A transient-transfer output that is registered goes from its exec URL to itself on the staging site, and is registered there. |
| `StageOut.FanOutToEveryPutServer` | src/edu/isi/pegasus/planner/refiner/TransferEngine.java:805-830 | When no PUT URL equals the exec URL, the descriptor has one destination per PUT server, in order. It is registered on the first GET server and keeps the file's transfer flag. |
| `StageOut.FanOutStopsAtFirstMatch` | src/edu/isi/pegasus/planner/refiner/TransferEngine.java:814-822 | When the k-th PUT URL is the first to equal the exec URL, the descriptor has k output-site destinations followed by the exec URL. It is registered at the exec URL and marked never to be transferred. |
| `StageOut.StageOutConfigurationErrors` | src/edu/isi/pegasus/planner/refiner/TransferEngine.java:794-850 | With no storage directory on the output site, or no PUT server there, the run aborts with that error. Without a GET server, the only way to succeed is a matching exec URL, which yields a never-transferred descriptor. |
| `StageOut.FileTXStep` | src/edu/isi/pegasus/planner/refiner/TransferEngine.java:709-834 | A successful output records its exec URL on the staging site in the transient catalog. |
| `StageOut.FileTXFrom` | src/edu/isi/pegasus/planner/refiner/TransferEngine.java:659-686 | A successful stage-out of a job's outputs adds exactly one transient entry per output. |
| `StageOut.StageOutOutput` | src/edu/isi/pegasus/planner/refiner/TransferEngine.java:666-680 | The method performs one step of the stage-out of a job's outputs, as `FileTXStep` specifies it. |
| `StageOut.FileTXRecordsEveryOutput` | src/edu/isi/pegasus/planner/refiner/TransferEngine.java:666-742 | A successful stage-out of a job's outputs records every output, in order, at its exec URL on the staging site. |
| `StageOut.FileTXStepBatch` | src/edu/isi/pegasus/planner/refiner/TransferEngine.java:677-680 | One output appends exactly one descriptor for that file to the batch, unless it is transient in both senses. |
| `StageOut.FileTXBatchExtends` | src/edu/isi/pegasus/planner/refiner/TransferEngine.java:666-682 | The batch only grows at its end. |
| `StageOut.FileTXBatchFollowsOutputs` | src/edu/isi/pegasus/planner/refiner/TransferEngine.java:666-682 | The batch's file names are the job's outputs in order, less those transient in both senses. |
| `StageOut.NonTransientMembership` | src/edu/isi/pegasus/planner/refiner/TransferEngine.java:1683-1687 | A file is counted exactly when it is not transient for transfer. |
| `StageOut.StageOutFilesMembership` | src/edu/isi/pegasus/planner/refiner/TransferEngine.java:1679-1689 | A file is counted exactly when it is a non-transient output of some job of the workflow. |
| `StageOut.CountStageOutFiles` | src/edu/isi/pegasus/planner/refiner/TransferEngine.java:1678-1689 | The loop's count is the number of non-transient outputs over all jobs. |
| `StageOut.InitializeStageOutSiteDirectoryFactory` | src/edu/isi/pegasus/planner/refiner/TransferEngine.java:1646-1716 | Without an output site there is no layout. An unknown output site, or one without a storage directory, aborts. Otherwise the layout is that storage directory: hashed and sized to the stage-out file count when deep storage is on, flat when it is off. |
| `InterSite.InterSiteDestination` | src/edu/isi/pegasus/planner/refiner/TransferEngine.java:927-945 | An unknown staging site, or one without a PUT scratch server, aborts. The third-party URL is the chosen PUT server's URL followed by the staging site's external work directory. Where the transfer runs follows `RunTransferOnLocalSite` on that URL. The destination is that URL on the submit host, and otherwise the `file://` URL of the staging site's internal work directory for the job. |
| `InterSite.InterSiteSources` | src/edu/isi/pegasus/planner/refiner/TransferEngine.java:978-998 | The sources are the parent's GET-server URLs for the file, on the parent's staging site. Every such URL that differs from the third-party destination URL, ignoring case, is kept, and no other. |
| `InterSite.CollectInterSiteSources` | src/edu/isi/pegasus/planner/refiner/TransferEngine.java:978-998 | The loop collects exactly `InterSiteSources`. |
| `InterSite.InterSiteFile` | src/edu/isi/pegasus/planner/refiner/TransferEngine.java:948-1007 | An output the job does not read changes nothing. One it reads is recorded at the job's destination directory on the job's staging site, and aborts when the parent's staging site has no scratch directory. The step only appends. |
| `InterSite.InterSiteFileComplete` | src/edu/isi/pegasus/planner/refiner/TransferEngine.java:952-1007 | An output the job reads, from a parent whose scratch directory exists, never aborts. Its descriptor, when it has a source, is appended to the batch chosen by where the transfer runs, and the other batch is unchanged. |
| `InterSite.InterSiteFilesFrom` | src/edu/isi/pegasus/planner/refiner/TransferEngine.java:948-1009 | Walking a parent's outputs can abort only because the parent's staging site has no scratch directory. |
| `InterSite.InterSiteFilesFromComplete` | src/edu/isi/pegasus/planner/refiner/TransferEngine.java:948-1009 | After a successful walk over a parent's outputs, every output the job reads has its descriptor, when it has a source, in the batch chosen by where the transfers run. |
| `InterSite.InterSiteFileSound` | src/edu/isi/pegasus/planner/refiner/TransferEngine.java:948-1007 | One parent output only appends. Every descriptor it adds moves an output of that parent that the job reads, from the parent's staging site to the job's. The descriptor goes to the local batch only when the transfer runs on the submit host. |
| `InterSite.InterSiteFilesFromSound` | src/edu/isi/pegasus/planner/refiner/TransferEngine.java:948-1009 | The same holds over all of one parent's outputs. |
| `InterSite.InterpoolSound` | src/edu/isi/pegasus/planner/refiner/TransferEngine.java:899-1018 | Over all parents, every inter-site descriptor comes from a parent on another staging site. The local batch grows only when the transfers run on the submit host, and the remote batch only when they do not. |
| `InterSite.InterpoolFrom` | src/edu/isi/pegasus/planner/refiner/TransferEngine.java:899-1018 | getInterpoolFileTX can abort only on an unknown site, a missing PUT scratch server or a missing scratch directory. |
| `InterSite.InterpoolComplete` | src/edu/isi/pegasus/planner/refiner/TransferEngine.java:899-1018 | getInterpoolFileTX misses nothing. When it succeeds, every parent on a different staging site has a known staging site and a resolved destination. Every output of it that the job reads has its descriptor, when it has a source, in the local batch if the transfers run on the submit host and in the remote batch otherwise. |
| `InterSite.InterSiteParent` | src/edu/isi/pegasus/planner/refiner/TransferEngine.java:912-1009 | A parent on an unknown staging site aborts naming it. A parent on the job's staging site, ignoring case, adds nothing. Any failure is an unknown site, a missing PUT scratch server or a missing scratch directory. |
| `InterSite.ParentOutputs` | src/edu/isi/pegasus/planner/refiner/TransferEngine.java:1568-1578 | A file name is a parent output exactly when some parent lists it among its outputs. |
| `InterSite.GetOutputFiles` | src/edu/isi/pegasus/planner/refiner/TransferEngine.java:1568-1578 | The loop computes `ParentOutputs`. |
| `InterSite.RCSearchFilesMembership` | src/edu/isi/pegasus/planner/refiner/TransferEngine.java:622-629 | An input is looked up in the replica catalog exactly when no parent produces it and it is not transient for transfer. |
| `InterSite.RCSearchFiles` | src/edu/isi/pegasus/planner/refiner/TransferEngine.java:622-629 | There are never more files to look up than the job has inputs. Which files they are is stated by `RCSearchFilesMembership`. |
| `InterSite.CollectRCSearchFiles` | src/edu/isi/pegasus/planner/refiner/TransferEngine.java:622-629 | The loop collects exactly `RCSearchFiles`. |
| `StageIn.StageInSetup` | src/edu/isi/pegasus/planner/refiner/TransferEngine.java:1154-1188 | An unknown staging site, or one without a PUT scratch server, aborts. The directory path is the staging site's external work directory for the chosen PUT server, and its URL is that server's URL followed by the path. Where the transfer runs follows `RunTransferOnLocalSite` on that URL. The destination directory is that URL on the submit host, and otherwise the `file://` URL of the staging site's internal work directory for the job. |
| `StageIn.StageInFile` | src/edu/isi/pegasus/planner/refiner/TransferEngine.java:1191-1393 | An input either leaves the transient catalog alone or records the file at the staging site's third-party URL. |
| `StageIn.OptionalMissingFileDropped` | src/edu/isi/pegasus/planner/refiner/TransferEngine.java:1229-1240 | An optional input unknown to the catalog is removed from the job's inputs, and nothing else changes. |
| `StageIn.RequiredMissingFileAborts` | src/edu/isi/pegasus/planner/refiner/TransferEngine.java:1243-1246 | A required input unknown to the catalog aborts the run and changes nothing. |
| `StageIn.InPlaceFileSkipped` | src/edu/isi/pegasus/planner/refiner/TransferEngine.java:1311-1330 | An input already in place is neither tracked nor transferred. |
| `StageIn.ThirdPartyCopySkipped` | src/edu/isi/pegasus/planner/refiner/TransferEngine.java:1312 | An input whose replica is the staging directory's third-party URL for it, ignoring case, changes nothing. |
| `StageIn.StagedFileTracked` | src/edu/isi/pegasus/planner/refiner/TransferEngine.java:1355-1389 | A staged input is recorded at the staging site's third-party URL and gets one descriptor from the chosen replica to the staging site. A symlinked replica gets a `file:` source and a `symlink:` destination and goes to the remote batch. Otherwise the batch follows where transfers run. |
| `StageIn.StageInFileSound` | src/edu/isi/pegasus/planner/refiner/TransferEngine.java:1361-1389 | One input only appends. Every descriptor moves an input of the job to its staging site, and there is one placement per descriptor. |
| `StageIn.StageInSound` | src/edu/isi/pegasus/planner/refiner/TransferEngine.java:1191-1393 | The same holds over all inputs. The local batch is used only when transfers run on the submit host. |
| `StageIn.StageInFrom` | src/edu/isi/pegasus/planner/refiner/TransferEngine.java:1191-1393 | The walk over the inputs can abort only on a required input unknown to the catalog or a replica locator without `/`. |
| `StageIn.FilesFromRC` | src/edu/isi/pegasus/planner/refiner/TransferEngine.java:1141-1400 | When the staging directory cannot be set up, the stage-in aborts with that error before any input is handled. Any failure is an unknown site, a missing PUT scratch server, a missing replica or a malformed locator. |
| `StageIn.StageInDropsMissingOptional` | src/edu/isi/pegasus/planner/refiner/TransferEngine.java:1229-1240 | After a successful stage-in, the job's inputs are the original ones less exactly the optional files the catalog does not know. |
| `StageIn.SubworkflowPath` | src/edu/isi/pegasus/planner/refiner/TransferEngine.java:1041-1065 | A description file unknown to the catalog aborts. An absolute-path replica is used as is, and a `file:` replica by its path. Any other replica aborts with an invalid-URL error. |
| `StageIn.DAGFromRC` | src/edu/isi/pegasus/planner/refiner/TransferEngine.java:1026-1074 | A DAG job's stage-in aborts exactly when its description file does not resolve, with that error. |
| `StageIn.DAXFromRC` | src/edu/isi/pegasus/planner/refiner/TransferEngine.java:1082-1128 | A DAX job's stage-in aborts exactly when its description file does not resolve, with that error. |
| `StageIn.SubworkflowInputsDropped` | src/edu/isi/pegasus/planner/refiner/TransferEngine.java:1032-1039 | A DAG or DAX job loses all its inputs, whatever the outcome. Only the fields naming its description change. |
| `StageIn.DAGFileResolved` | src/edu/isi/pegasus/planner/refiner/TransferEngine.java:1067-1070 | A resolved DAG job gets the path as its DAG file. Its directory takes the external-directory variable, which is removed. |
| `StageIn.DAXArgumentAppended` | src/edu/isi/pegasus/planner/refiner/TransferEngine.java:1124-1127 | A resolved DAX job keeps its arguments, followed by `--dax` and the path. |
| `Deleted.LookupDeletedFile` | src/edu/isi/pegasus/planner/refiner/TransferEngine.java:534-547 | An output unknown to the catalog aborts, and so does one without a PUT URL, with that error. On success, the PUT and GET URLs are the output-site URLs for the file. The locations are the replicas the selector picks on the pool, for a transfer run where `RunTransferOnLocalSite` says for a stage-out to the PUT URL. |
| `Deleted.DeletedFileDescriptor` | src/edu/isi/pegasus/planner/refiner/TransferEngine.java:530-579 | A descriptor is made only for a non-transient file with no location already at the output-site URL. It goes to that PUT URL on the pool and is registered at the GET URL. |
| `Deleted.ScanLocations` | src/edu/isi/pegasus/planner/refiner/TransferEngine.java:550-576 | The scan stops exactly when some location equals the PUT URL, after trimming and ignoring case. Otherwise the descriptor is built from the last location, or is empty if there are none. |
| `Deleted.BuildDeletedDescriptor` | src/edu/isi/pegasus/planner/refiner/TransferEngine.java:530-579 | The method builds the descriptor `DeletedFileDescriptor` specifies. |
| `Deleted.GetDeletedFileTX` | src/edu/isi/pegasus/planner/refiner/TransferEngine.java:522-582 | The loop builds the batch of a deleted job's outputs, with no empty entry. |
| `Deleted.AlreadyAtOutputSiteSkipped` | src/edu/isi/pegasus/planner/refiner/TransferEngine.java:559-565 | A file with a location at the output-site URL is not moved. |
| `Deleted.DeletedFileMovedFromLastLocation` | src/edu/isi/pegasus/planner/refiner/TransferEngine.java:554-579 | Otherwise a non-transient file with locations is moved from its last location. |
| `Deleted.DeletedBatchExtends` | src/edu/isi/pegasus/planner/refiner/TransferEngine.java:522-582 | The batch only grows at its end, by at most one descriptor per output. |
| `Deleted.DeletedBatchSound` | src/edu/isi/pegasus/planner/refiner/TransferEngine.java:530-579 | Every descriptor in the batch moves a non-transient output of the deleted job on its behalf. |
| `Deleted.DeletedFileTXFrom` | src/edu/isi/pegasus/planner/refiner/TransferEngine.java:522-582 | Building a deleted job's batch can abort only on a file unknown to the catalog, a missing output-site server or a path the factory cannot allocate. |
| `Deleted.DeletedFileEntryAsWritten` | src/edu/isi/pegasus/planner/refiner/TransferEngine.java:550-579 | As written, one output adds at most one entry to the batch. |
| `Deleted.NoLocationAddsEmptyDescriptor` | src/edu/isi/pegasus/planner/refiner/TransferEngine.java:577-579 | As written, a non-transient file with no location on the pool adds an empty entry. The corrected version adds none. |
| `Deleted.CorrectedAgreesElsewhere` | src/edu/isi/pegasus/planner/refiner/TransferEngine.java:550-579 | In every other case the corrected descriptor is exactly the one the code adds. |
| `Engine.NodeRun` | src/edu/isi/pegasus/planner/refiner/TransferEngine.java:400-448 | A node keeps the size of the job table and leaves the deleted jobs alone. |
| `Engine.PrepareDeleted` | src/edu/isi/pegasus/planner/refiner/TransferEngine.java:463-471 | A deleted job gets the deleted-jobs level, the submit host as its site, and the staging site chosen for that site. Nothing else changes. |
| `Engine.ParentsRunAppends` | src/edu/isi/pegasus/planner/refiner/TransferEngine.java:595-643 | processParents only appends to the refiner's calls. It keeps the job's level, name, sites and outputs. When the inter-site half aborts, no call is made. |
| `Engine.ParentsRun` | src/edu/isi/pegasus/planner/refiner/TransferEngine.java:595-643 | When the inter-site half aborts, processParents aborts with its error and leaves the job and the calls alone. With no input to look up in the replica catalog, the job is unchanged. |
| `Engine.ParentsRunLog` | src/edu/isi/pegasus/planner/refiner/TransferEngine.java:611-642 | A successful processParents logs its inter-site calls, followed by those of the replica-catalog half when there are inputs to look up. |
| `Engine.ParentsRunCalls` | src/edu/isi/pegasus/planner/refiner/TransferEngine.java:605-642 | A successful processParents makes, in order: one inter-site call for the local batch if it is not empty, one for the remote batch if it is not empty, and, for an ordinary job with inputs to look up, one stage-in call when a stage-in batch is not empty. It makes no other call. |
| `Engine.SearchRCAppends` | src/edu/isi/pegasus/planner/refiner/TransferEngine.java:631-642 | The replica-catalog lookup, for every kind of job, only appends to the refiner's calls and keeps the job's level, name, sites and outputs. It makes exactly one stage-in call when an ordinary job succeeds with a non-empty batch, and none otherwise. |
| `Engine.SearchRC` | src/edu/isi/pegasus/planner/refiner/TransferEngine.java:631-642 | A DAG or DAX job leaves the transient catalog and the calls alone and loses its inputs. A failure makes no call. |
| `Engine.StageOutRun` | src/edu/isi/pegasus/planner/refiner/TransferEngine.java:425-444 | A job whose staging site is unknown aborts, naming the job's site. A staging site without a PUT scratch server aborts naming it. The job itself is never changed. |
| `Engine.StageOutRunAppends` | src/edu/isi/pegasus/planner/refiner/TransferEngine.java:425-444 | A job's stage-out only appends to the refiner's calls and leaves the job alone. |
| `Engine.NodeRunAppends` | src/edu/isi/pegasus/planner/refiner/TransferEngine.java:400-448 | One node only appends to the refiner's calls. |
| `Engine.NodesFromAppends` | src/edu/isi/pegasus/planner/refiner/TransferEngine.java:400-449 | The walk over the graph only appends to the refiner's calls. |
| `Engine.DeletedFromAppends` | src/edu/isi/pegasus/planner/refiner/TransferEngine.java:457-486 | Handling the deleted jobs only appends to the refiner's calls. |
| `Engine.TransferNodesEndsWithDone` | src/edu/isi/pegasus/planner/refiner/TransferEngine.java:381-494 | addTransferNodes only appends to the refiner's calls. A failed run never tells the refiner it is done. A successful run tells it exactly once, as its last call. |
| `Engine.TransferNodesRun` | src/edu/isi/pegasus/planner/refiner/TransferEngine.java:381-494 | The run keeps the number of jobs and of deleted jobs. Without an output site the deleted jobs are left alone. |
| `Engine.NodesFrom` | src/edu/isi/pegasus/planner/refiner/TransferEngine.java:400-449 | The walk over the graph keeps the number of jobs and leaves the deleted jobs alone. |
| `Engine.DeletedFrom` | src/edu/isi/pegasus/planner/refiner/TransferEngine.java:457-486 | Handling the deleted jobs keeps their number and leaves the job table and the transient catalog alone. |
| `Engine.DeletedFromCalls` | src/edu/isi/pegasus/planner/refiner/TransferEngine.java:463-485 | Handling the deleted jobs appends, in their order, one stage-out on the submit host per job whose batch is not empty, and nothing else. |
| `Engine.NodeRunUpdatesOnlyItsJob` | src/edu/isi/pegasus/planner/refiner/TransferEngine.java:400-448 | A node changes no job but its own. That job takes the node's depth as its level and keeps its name, sites and outputs. |
| `Engine.TrackRecordsEveryOutput` | src/edu/isi/pegasus/planner/refiner/TransferEngine.java:1740-1760 | A successful tracking records every output, in order, under the job's own site. Each is recorded at the chosen GET scratch server's URL, followed by the external work directory of the job's site, a separator and the file name. |
| `Engine.TrackFailsExactly` | src/edu/isi/pegasus/planner/refiner/TransferEngine.java:1740-1751 | Tracking fails exactly when there is an output to record and the staging site has no GET scratch server. The error names that site. |
| `Engine.TrackFrom` | src/edu/isi/pegasus/planner/refiner/TransferEngine.java:1740-1760 | Tracking adds at most one entry per remaining output and never removes one. |
| `Engine.TrackRun` | src/edu/isi/pegasus/planner/refiner/TransferEngine.java:1724-1761 | An unknown staging site aborts before anything is recorded. At most one entry is added per output, and none is removed. |
| `Engine.DeletedFromPrepares` | src/edu/isi/pegasus/planner/refiner/TransferEngine.java:463-471 | After the deleted jobs are handled, each has been prepared as `PrepareDeleted` states. |
| `Engine.DeletedJobsMovedToSubmitHost` | src/edu/isi/pegasus/planner/refiner/TransferEngine.java:463-471 | Every deleted job ends at the deleted-jobs level on the submit host, under its own name. |
| `Engine.StageOutVisitHandsOneBatch` | src/edu/isi/pegasus/planner/refiner/TransferEngine.java:425-444 | A successful stage-out of a job hands the refiner exactly one batch, even an empty one. The batch follows the outputs that are not transient in both senses, and every output's exec URL is recorded. |
| `Engine.TransferEngine.constructor` | src/edu/isi/pegasus/planner/refiner/TransferEngine.java:229-256 | The engine starts with the given jobs and deleted jobs, an empty transient catalog, and no refiner calls. |
| `Engine.TransferEngine.GetFileTX` | src/edu/isi/pegasus/planner/refiner/TransferEngine.java:659-686 | The loop over a job's outputs yields the batch and transient records `FileTXFrom` specifies. It leaves the jobs and the refiner alone. |
| `Engine.TransferEngine.AddParentFiles` | src/edu/isi/pegasus/planner/refiner/TransferEngine.java:948-1007 | The loop over one parent's outputs yields the batches and transient records `InterSiteFilesFrom` specifies. |
| `Engine.TransferEngine.AddParentFile` | src/edu/isi/pegasus/planner/refiner/TransferEngine.java:949-1007 | One output of a parent is handled as `InterSiteFile` specifies. The jobs and the refiner are left alone. |
| `Engine.TransferEngine.GetInterpoolFileTX` | src/edu/isi/pegasus/planner/refiner/TransferEngine.java:899-1018 | The loop over the parents yields the two inter-site batches `InterpoolFrom` specifies. |
| `Engine.TransferEngine.GetFilesFromRC` | src/edu/isi/pegasus/planner/refiner/TransferEngine.java:1141-1400 | Stage-in of an ordinary job updates only that job's inputs, the transient catalog and the refiner's calls, as `SearchRC` specifies. |
| `Engine.TransferEngine.StageInOne` | src/edu/isi/pegasus/planner/refiner/TransferEngine.java:1191-1393 | One input is handled as `StageInFile` specifies. |
| `Engine.TransferEngine.GetSubworkflowFromRC` | src/edu/isi/pegasus/planner/refiner/TransferEngine.java:1026-1128 | A DAG or DAX job is updated as `DAGFromRC` or `DAXFromRC` specifies. Nothing else changes. |
| `Engine.TransferEngine.ProcessParents` | src/edu/isi/pegasus/planner/refiner/TransferEngine.java:595-643 | processParents updates only its job, the transient catalog and the refiner's calls, as `ParentsRun` specifies. |
| `Engine.TransferEngine.TrackInTransientRC` | src/edu/isi/pegasus/planner/refiner/TransferEngine.java:1724-1761 | Tracking a job changes only the transient catalog, as `TrackRun` specifies. |
| `Engine.TransferEngine.StageOutNode` | src/edu/isi/pegasus/planner/refiner/TransferEngine.java:425-444 | A job's stage-out changes the transient catalog and the refiner's calls as `StageOutRun` specifies, and leaves the jobs alone. |
| `Engine.TransferEngine.VisitNode` | src/edu/isi/pegasus/planner/refiner/TransferEngine.java:400-448 | One node of the walk changes the engine's state as `NodeRun` specifies. |
| `Engine.TransferEngine.StageOutDeletedJobs` | src/edu/isi/pegasus/planner/refiner/TransferEngine.java:457-486 | The deleted jobs are handled as `DeletedFrom` specifies. |
| `Engine.TransferEngine.WalkNodes` | src/edu/isi/pegasus/planner/refiner/TransferEngine.java:400-449 | The loop over the graph's nodes changes the engine's state as `NodesFrom` specifies, and stops at the first node that aborts. |
| `Engine.TransferEngine.AddTransferNodes` | src/edu/isi/pegasus/planner/refiner/TransferEngine.java:381-494 | The whole run changes the engine's state as `TransferNodesRun` specifies. |
| `Engine.NewTransferEngine` | src/edu/isi/pegasus/planner/refiner/TransferEngine.java:229-256 | Construction fails on a malformed SRM property. On success, the SRM map holds exactly the sites with both SRM keys, and with an output site the layout is its storage directory. |

## Left out

- Inputs that are already transfer descriptors (the executable-staging case in getFilesFromRC and constructFileTX) are not modelled. Their destination comes from a queue that belongs to another class.
- The branch that bypasses first-level staging is not modelled. The code switches it off right before testing it, so it never runs.
- Logging is not modelled. Nor is the wording of the error messages: the `complainFor…` helpers and `poolNotFoundMsg` appear only as the error kind and the site they name.
- `Engine.StageOutRun`: a job whose staging site is unknown aborts naming the job's own site. This follows the code, which passes the job's site to the message.
- `Engine.TrackRun`: the code throws a stale message when the staging site is unknown. The model reports `SiteNotFound` for the staging site instead.
- The factories are not modelled. This covers the loading of the transfer refiner and the replica selector, the internals of the output-site file factory, and the factory's state from one file to the next. Each appears only through what the engine asks of it: the `Env` and `Advisories` fields.
- Replica selection, work-directory lookup, URL path extraction and host-name handling are not modelled. They are foreign code, and the model takes them as functions in `Env`.
- `StageIn.StageInFile`: the canonical-path comparison of the source and destination directories is the `sameCanonicalPath` function of `Env`. The `IOException` it may raise is treated as "not the same".
- `Text.EqualsIgnoreCase`: case is folded for ASCII letters only.
- `Urls.SelectFileServer`: the server is picked by a function of `Env`. The model therefore does not capture a random pick changing from call to call.
- The servers for PUT are those registered for `put` and then `all`, and those for GET are `get` and then `all`. This ordering comes from a library class that is not part of this model.
- The workflow graph is given as a sequence of nodes in traversal order. The conversion from the DAG and the traversal order are not part of this model.
- File identity in job file sets is the logical name.
- A selected replica whose PFN has no `/` makes `substring` throw in the stage-in code (line 1274), and an SRM key without `.` does the same. Both are modelled as failures: `MalformedURL` and `MalformedProperty`.

## Findings

| source | as written | input that shows it | evidently intended | confidence | as-written member | corrected member |
|---|---|---|---|---|---|---|
| src/edu/isi/pegasus/planner/refiner/TransferEngine.java:577-579 | After the loop over a deleted job's output locations, the descriptor is added whenever no location was at the output site, even when it is still `null` because there was no location. | A non-transient output that the catalog knows, for which the replica selector returns no location on the pool. | No descriptor is added when there is no location to move the file from. | not executed | `Deleted.NoLocationAddsEmptyDescriptor` | `Deleted.DeletedFileDescriptor` |
