/** The URL builder: where a transfer job runs, how locators are rewritten
    for symbolic linking and SRM mount points, and how URLs on the output
    site are formed (TransferEngine.java). */
module Urls {
  import opened Text
  import opened Entities

  const FileScheme: string := "file:"
  const SymlinkScheme: string := "symlink:"
  const LocalSite: string := "local"
  const Separator: string := "/"

  /** The level given to jobs deleted by reduction, beyond any real depth. */
  const DeletedJobsLevel: int := 1000

  /** A configured output site is one that is present and not blank. */
  predicate IsStageOut(outputSite: Option<string>) {
    outputSite.Some? && |Trim(outputSite.value)| > 0
  }

  // ------------------------------------------------------ server choice

  /** A directory's choice of server for an operation: one of the matching
      servers, or none when there is none. */
  function SelectFileServer(env: Env, d: Directory, ops: seq<Operation>): (r: Option<FileServer>)
    ensures r.None? <==> ServersFor(d, ops) == []
    ensures r.Some? ==> r.value in ServersFor(d, ops)
  {
    var candidates := ServersFor(d, ops);
    if candidates == [] then None else Some(candidates[env.pick(candidates) % |candidates|])
  }

  /** The chosen server of a site's shared-scratch directory. */
  function ScratchServer(env: Env, site: Site, ops: seq<Operation>): (r: Option<FileServer>)
    ensures r.Some? <==> site.scratch.Some? && ServersFor(site.scratch.value, ops) != []
    ensures r.Some? ==> site.scratch.Some? && r.value in ServersFor(site.scratch.value, ops)
  {
    match site.scratch
    case None => None
    case Some(d) => SelectFileServer(env, d, ops)
  }

  // -------------------------------------------------- placement decision

  /** Whether the transfer job for a destination runs on the submit host.
      The guards apply in order: the local site, the refiner's preference,
      the refiner's demand for remote execution, a `file:` destination. */
  function RunTransferOnLocalSite(adv: Advisories, site: string, destinationURL: Option<string>,
                                  ty: TransferType): (r: bool)
    ensures r <==>
      || site == LocalSite
      || (adv.hasPreference && adv.prefersLocal(ty))
      || (!adv.hasPreference && !adv.runRemotely(site, ty)
          && !(destinationURL.Some? && StartsWith(destinationURL.value, FileScheme)))
  {
    if site == LocalSite then true
    else if adv.hasPreference then adv.prefersLocal(ty)
    else if adv.runRemotely(site, ty) then false
    else if destinationURL.Some? && StartsWith(destinationURL.value, FileScheme) then false
    else true
  }

  /** The staging site: the configured one for the job's site, else the job's site. */
  function GetStagingSite(env: Env, job: Job): (r: string)
    ensures env.stagingOverride(job.siteHandle).None? ==> r == job.siteHandle
    ensures env.stagingOverride(job.siteHandle).Some? ==> r == env.stagingOverride(job.siteHandle).value
  {
    match env.stagingOverride(job.siteHandle)
    case None => job.siteHandle
    case Some(ss) => ss
  }

  // ---------------------------------------------------- URL rewriting

  /** Rewrites a locator to the `symlink:` scheme: a `file:` locator keeps
      everything after its scheme, any other keeps only its path. */
  function ReplaceProtocolFromURL(urlPath: string -> string, pfn: string): (r: string)
    ensures StartsWith(r, SymlinkScheme)
    ensures StartsWith(pfn, FileScheme) ==> r[|SymlinkScheme|..] == pfn[|FileScheme|..]
    ensures !StartsWith(pfn, FileScheme) ==> r[|SymlinkScheme|..] == "//" + urlPath(pfn)
  {
    if StartsWith(pfn, FileScheme) then SymlinkScheme + pfn[|FileScheme|..]
    else SymlinkScheme + "//" + urlPath(pfn)
  }

  /** Turns a `symlink:` locator back into the `file:` locator it names. */
  function SymlinkToFile(s: string): string
    requires StartsWith(s, SymlinkScheme)
  {
    FileScheme + s[|SymlinkScheme|..]
  }

  /** For `file:` locators the symlink rewrite loses nothing: it is undone by `SymlinkToFile`. */
  lemma SymlinkRewriteInvertible(urlPath: string -> string, pfn: string)
    requires StartsWith(pfn, FileScheme)
    ensures SymlinkToFile(ReplaceProtocolFromURL(urlPath, pfn)) == pfn
  {
    assert pfn == pfn[..|FileScheme|] + pfn[|FileScheme|..];
  }

  /** The replica the selector chose, rewritten to a `file:` locator for
      symbolic linking: a `file:` replica is kept as it is; a replica at a
      site with a configured SRM server whose locator starts with that
      server's service URL gets the mount point in place of the service URL;
      any other keeps only its path. The site and attributes are kept. */
  function ReplaceSourceProtocolFromURL(srm: map<string, SrmServer>, urlPath: string -> string,
                                        rce: Replica): (r: Replica)
    ensures r.site == rce.site && r.attributes == rce.attributes
    ensures StartsWith(r.pfn, FileScheme)
    ensures StartsWith(rce.pfn, FileScheme) ==> r == rce
    ensures !StartsWith(rce.pfn, FileScheme) && rce.site in srm
            && StartsWith(rce.pfn, srm[rce.site].serviceURL)
            ==> r.pfn == FileScheme + "//" + srm[rce.site].mountPoint
                         + rce.pfn[|srm[rce.site].serviceURL|..]
    ensures !StartsWith(rce.pfn, FileScheme)
            && !(rce.site in srm && StartsWith(rce.pfn, srm[rce.site].serviceURL))
            ==> r.pfn == FileScheme + "//" + urlPath(rce.pfn)
  {
    if StartsWith(rce.pfn, FileScheme) then rce
    else
      var newPFN :=
        if rce.site in srm && StartsWith(rce.pfn, srm[rce.site].serviceURL) then
          FileScheme + "//" + srm[rce.site].mountPoint + rce.pfn[|srm[rce.site].serviceURL|..]
        else
          FileScheme + "//" + urlPath(rce.pfn);
      assert newPFN[..|FileScheme|] == FileScheme;
      Replica(newPFN, rce.site, rce.attributes)
  }

  /** Rewriting a replica for linking twice is the same as doing it once. */
  lemma ReplaceSourceProtocolIdempotent(srm: map<string, SrmServer>, urlPath: string -> string,
                                        rce: Replica)
    ensures ReplaceSourceProtocolFromURL(srm, urlPath, ReplaceSourceProtocolFromURL(srm, urlPath, rce))
            == ReplaceSourceProtocolFromURL(srm, urlPath, rce)
  {
  }

  // ------------------------------------------------- SRM configuration

  const ServiceUrlSuffix: string := "service.url"
  const MountPointSuffix: string := "mountpoint"

  /** The site a property key names: everything before its first dot. */
  function SiteOfKey(key: string): string
    requires '.' in key
  {
    key[..IndexOf(key, '.')]
  }

  /** What an SRM property key names: nothing usable when it has no dot,
      else a site's service URL or mount point (the service-URL suffix is
      tested first), or neither. */
  datatype SrmKey = Malformed | ServiceUrlOf(site: string) | MountPointOf(site: string) | Unrelated

  function ClassifyKey(key: string): (r: SrmKey)
    ensures r == Malformed <==> '.' !in key
  {
    if '.' !in key then Malformed
    else if EndsWith(key, ServiceUrlSuffix) then ServiceUrlOf(SiteOfKey(key))
    else if EndsWith(key, MountPointSuffix) then MountPointOf(SiteOfKey(key))
    else Unrelated
  }

  /** `key` gives the SRM service URL of `site`. */
  predicate IsServiceUrlKey(props: map<string, string>, site: string, key: string) {
    key in props && ClassifyKey(key) == ServiceUrlOf(site)
  }

  /** `key` gives the SRM mount point of `site`. */
  predicate IsMountPointKey(props: map<string, string>, site: string, key: string) {
    key in props && ClassifyKey(key) == MountPointOf(site)
  }

  /** Builds the site-to-SRM-server map from the SRM properties (keys with
      the property prefix already removed). A site is in the map exactly
      when it has both a service URL and a mount point; a key without a dot
      aborts, as the site name cannot be cut out of it. Keys are visited in
      no particular order, so with several keys for one site any of them
      may win. */
  method ConstructSiteToSRMServerMap(props: map<string, string>) returns (r: Result<map<string, SrmServer>>)
    ensures r.Fail? <==> exists key :: key in props && '.' !in key
    ensures r.Fail? ==> r.error.MalformedProperty? && r.error.key in props && '.' !in r.error.key
    ensures r.Ok? ==> forall site :: site in r.value <==>
              (exists k :: IsServiceUrlKey(props, site, k)) && (exists k :: IsMountPointKey(props, site, k))
    ensures r.Ok? ==> forall site :: site in r.value ==>
              (exists k :: IsServiceUrlKey(props, site, k) && r.value[site].serviceURL == props[k])
              && (exists k :: IsMountPointKey(props, site, k) && r.value[site].mountPoint == props[k])
  {
    var split := SplitSrmProperties(props);
    if split.Fail? {
      return Fail(split.error);
    }
    var (urls, mounts) := split.value;
    var m := MergeSrmMaps(urls, mounts);
    r := Ok(m);
  }

  /** What a key of kind `kind` names for `site`. */
  function KeyFor(mountPoints: bool, site: string): SrmKey {
    if mountPoints then MountPointOf(site) else ServiceUrlOf(site)
  }

  /** Every entry of `m` comes from the key `w` gives for its site. */
  ghost predicate WitnessedBy(props: map<string, string>, m: map<string, string>, w: map<string, string>,
                              mountPoints: bool)
  {
    && w.Keys == m.Keys
    && forall s :: s in w ==> w[s] in props && ClassifyKey(w[s]) == KeyFor(mountPoints, s) && m[s] == props[w[s]]
  }

  lemma WitnessedByUpdate(props: map<string, string>, m: map<string, string>, w: map<string, string>,
                          mountPoints: bool, site: string, key: string)
    requires WitnessedBy(props, m, w, mountPoints)
    requires key in props && ClassifyKey(key) == KeyFor(mountPoints, site)
    ensures WitnessedBy(props, m[site := props[key]], w[site := key], mountPoints)
  {
  }

  /** Every key seen so far is well formed, and the site it names is in the map of its kind. */
  ghost predicate Covered(seen: set<string>, urls: map<string, string>, mounts: map<string, string>)
  {
    && (forall k :: k in seen ==> ClassifyKey(k) != Malformed)
    && (forall k :: k in seen && ClassifyKey(k).ServiceUrlOf? ==> ClassifyKey(k).site in urls)
    && (forall k :: k in seen && ClassifyKey(k).MountPointOf? ==> ClassifyKey(k).site in mounts)
  }

  lemma CoveredAdd(seen: set<string>, urls: map<string, string>, mounts: map<string, string>, key: string,
                   urls1: map<string, string>, mounts1: map<string, string>)
    requires Covered(seen, urls, mounts)
    requires urls.Keys <= urls1.Keys && mounts.Keys <= mounts1.Keys
    requires ClassifyKey(key) != Malformed
    requires ClassifyKey(key).ServiceUrlOf? ==> ClassifyKey(key).site in urls1
    requires ClassifyKey(key).MountPointOf? ==> ClassifyKey(key).site in mounts1
    ensures Covered(seen + {key}, urls1, mounts1)
  {
  }

  /** The loop over the property keys: site to service URL, site to mount point. */
  method SplitSrmProperties(props: map<string, string>)
    returns (r: Result<(map<string, string>, map<string, string>)>)
    ensures r.Fail? <==> exists key :: key in props && '.' !in key
    ensures r.Fail? ==> r.error.MalformedProperty? && r.error.key in props && '.' !in r.error.key
    ensures r.Ok? ==> forall site :: site in r.value.0 <==> exists k :: IsServiceUrlKey(props, site, k)
    ensures r.Ok? ==> forall site :: site in r.value.1 <==> exists k :: IsMountPointKey(props, site, k)
    ensures r.Ok? ==> forall site :: site in r.value.0 ==>
              exists k :: IsServiceUrlKey(props, site, k) && r.value.0[site] == props[k]
    ensures r.Ok? ==> forall site :: site in r.value.1 ==>
              exists k :: IsMountPointKey(props, site, k) && r.value.1[site] == props[k]
  {
    var urls: map<string, string> := map[];
    var mounts: map<string, string> := map[];
    var rest := props.Keys;
    ghost var done: set<string> := {};
    ghost var urlKey: map<string, string> := map[];
    ghost var mountKey: map<string, string> := map[];
    while rest != {}
      invariant rest + done == props.Keys && rest !! done
      invariant Covered(done, urls, mounts)
      invariant WitnessedBy(props, urls, urlKey, false) && WitnessedBy(props, mounts, mountKey, true)
      decreases rest
    {
      var key :| key in rest;
      if '.' !in key {
        return Fail(MalformedProperty(key));
      }
      var site := SiteOfKey(key);
      ghost var urls0, mounts0 := urls, mounts;
      if EndsWith(key, ServiceUrlSuffix) {
        WitnessedByUpdate(props, urls, urlKey, false, site, key);
        urls := urls[site := props[key]];
        urlKey := urlKey[site := key];
      } else if EndsWith(key, MountPointSuffix) {
        WitnessedByUpdate(props, mounts, mountKey, true, site, key);
        mounts := mounts[site := props[key]];
        mountKey := mountKey[site := key];
      }
      CoveredAdd(done, urls0, mounts0, key, urls, mounts);
      rest := rest - {key};
      done := done + {key};
    }
    forall site | site in urls
      ensures exists k :: IsServiceUrlKey(props, site, k) && urls[site] == props[k]
    {
      var k := urlKey[site];
      assert IsServiceUrlKey(props, site, k) && urls[site] == props[k];
    }
    forall site | site in mounts
      ensures exists k :: IsMountPointKey(props, site, k) && mounts[site] == props[k]
    {
      var k := mountKey[site];
      assert IsMountPointKey(props, site, k) && mounts[site] == props[k];
    }
    forall site | exists k :: IsServiceUrlKey(props, site, k)
      ensures site in urls
    {
      var k :| IsServiceUrlKey(props, site, k);
      assert k in done;
    }
    forall site | exists k :: IsMountPointKey(props, site, k)
      ensures site in mounts
    {
      var k :| IsMountPointKey(props, site, k);
      assert k in done;
    }
    r := Ok((urls, mounts));
  }

  /** The merge loop: a site with a service URL but no mount point is dropped. */
  method MergeSrmMaps(urls: map<string, string>, mounts: map<string, string>)
    returns (m: map<string, SrmServer>)
    ensures forall s :: s in m <==> s in urls && s in mounts
    ensures forall s :: s in m ==> m[s] == SrmServer(urls[s], mounts[s])
  {
    m := map[];
    var todo := urls.Keys;
    while todo != {}
      invariant todo <= urls.Keys
      invariant forall s :: s in m <==> s in urls && s !in todo && s in mounts
      invariant forall s :: s in m ==> m[s] == SrmServer(urls[s], mounts[s])
      decreases todo
    {
      var site :| site in todo;
      if site in mounts {
        m := m[site := SrmServer(urls[site], mounts[site])];
      }
      todo := todo - {site};
    }
  }

  // ----------------------------------------------- output-site URLs

  /** A URL on the output site: the server's URL, the separator unless the
      allocated path already starts with one, and the allocated path. */
  function StageoutURL(server: FileServer, addOn: string): (r: string)
    ensures StartsWith(r, server.url)
    ensures StartsWith(r[|server.url|..], Separator)
    ensures EndsWith(r, addOn)
    ensures |r| == |server.url| + |addOn| + (if StartsWith(addOn, Separator) then 0 else 1)
  {
    var sep := if IndexOf(addOn, '/') != 0 then Separator else "";
    assert IndexOf(addOn, '/') == 0 <==> StartsWith(addOn, Separator);
    var r := server.url + sep + addOn;
    assert r[..|server.url|] == server.url;
    assert r[|server.url|..] == sep + addOn;
    assert r[|r| - |addOn|..] == addOn;
    r
  }

  /** The URL of `lfn` under `server`, the layout allocating its relative path. */
  function URLOnStageoutSite(env: Env, factory: Factory, server: FileServer, lfn: string): (r: Result<string>)
    ensures r.Fail? <==> env.createFile(factory, lfn).None?
    ensures r.Fail? ==> r.error == AllocationFailed(lfn)
    ensures r.Ok? ==> r.value == StageoutURL(server, env.createFile(factory, lfn).value)
  {
    match env.createFile(factory, lfn)
    case None => Fail(AllocationFailed(lfn))
    case Some(addOn) => Ok(StageoutURL(server, addOn))
  }

  /** The operations that serve a requested one. */
  function OperationsFor(op: Operation): seq<Operation> {
    if op == Get then GetOperations else PutOperations
  }

  /** The URL of `lfn` in the output site's storage directory for `op`. */
  function URLOnStageoutDirectory(env: Env, area: StageOutArea, outputSite: string,
                                  op: Operation, lfn: string): (r: Result<string>)
    ensures ServersFor(area.directory, OperationsFor(op)) == [] ==> r == Fail(NoFileServer(outputSite, op))
    ensures ServersFor(area.directory, OperationsFor(op)) != [] && env.createFile(area.factory, lfn).None?
            ==> r == Fail(AllocationFailed(lfn))
    ensures r.Ok? <==> ServersFor(area.directory, OperationsFor(op)) != [] && env.createFile(area.factory, lfn).Some?
    ensures r.Ok? ==> exists s :: s in ServersFor(area.directory, OperationsFor(op))
                        && env.createFile(area.factory, lfn).Some?
                        && r.value == StageoutURL(s, env.createFile(area.factory, lfn).value)
  {
    match SelectFileServer(env, area.directory, OperationsFor(op))
    case None => Fail(NoFileServer(outputSite, op))
    case Some(server) => URLOnStageoutSite(env, area.factory, server, lfn)
  }

  /** The registration URL: from the first server for GET of the storage directory. */
  function RegistrationURL(env: Env, factory: Factory, storage: Directory, site: string,
                           lfn: string): (r: Result<string>)
    ensures ServersFor(storage, GetOperations) == [] ==> r == Fail(NoGetServers(site))
    ensures ServersFor(storage, GetOperations) != [] && env.createFile(factory, lfn).None?
            ==> r == Fail(AllocationFailed(lfn))
    ensures r.Ok? <==> ServersFor(storage, GetOperations) != [] && env.createFile(factory, lfn).Some?
    ensures r.Ok? ==> env.createFile(factory, lfn).Some?
                      && r.value == StageoutURL(ServersFor(storage, GetOperations)[0],
                                                env.createFile(factory, lfn).value)
  {
    var gets := ServersFor(storage, GetOperations);
    if gets == [] then Fail(NoGetServers(site))
    else URLOnStageoutSite(env, factory, gets[0], lfn)
  }
}
