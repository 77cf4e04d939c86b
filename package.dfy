/** The `Package` model: a reference to one package (name, version, target
    path and, when managed, a store directory) that resolves `latest`
    against the registry, checks for its cached copy, and installs or updates
    it through the installer. The protocol is first stated on values
    (`PackageRef`, `World`), then the class is proved against it. */
module PackageModel {
  import opened Common
  import opened Environment
  import opened CacheNaming

  /** The version string that stands for "the newest published version". */
  const Latest := "latest"

  /** JavaScript truthiness of an optional string: absent and empty are false. */
  predicate IsSet(p: Option<string>) {
    p.Some? && p.value != ""
  }

  /** The fields of a package reference, as a value. */
  datatype PackageRef = PackageRef(
    targetPath: Option<Path>,
    storeDir: Option<Path>,
    packageName: string,
    packageVersion: string)

  /** A managed reference has a store directory and lives in the cache. */
  predicate Managed(p: PackageRef) {
    IsSet(p.storeDir)
  }

  /** The `options` object handed to the constructor. */
  datatype PackageOptions = PackageOptions(
    targetPath: Option<Path>,
    storeDir: Option<Path>,
    packageName: Option<string>,
    packageVersion: string)

  /** The constructor's argument: falsy, some non-object value, or an object. */
  datatype OptionsArg = Falsy | NotObject | Object(options: PackageOptions)

  /** What the constructor builds from its argument, or the error it throws. */
  function Construct(arg: OptionsArg): (r: Result<PackageRef>)
    ensures r.Ok? <==> arg.Object? && arg.options.packageName.Some?
    ensures arg.Falsy? ==> r == Err(OptionsMissing)
    ensures arg.NotObject? ==> r == Err(OptionsNotObject)
    ensures r.Ok? ==>
      var o := arg.options;
      r.value == PackageRef(o.targetPath, o.storeDir, o.packageName.value, o.packageVersion)
  {
    match arg
    case Falsy => Err(OptionsMissing)
    case NotObject => Err(OptionsNotObject)
    case Object(o) =>
      if o.packageName.None? then Err(PackageNameMissing)
      else Ok(PackageRef(o.targetPath, o.storeDir, o.packageName.value, o.packageVersion))
  }

  /** The outcome of one package operation: its result, the reference's
      version afterwards, and the world afterwards. */
  datatype Effect<T> = Effect(result: Result<T>, version: string, world: World)

  /** `prepare`: create the store directory when it is set and absent, then
      resolve `latest` through the registry. */
  function PrepareSpec(svc: Services, p: PackageRef, w: World): Effect<()> {
    var w1 := if IsSet(p.storeDir) && p.storeDir.value !in w.files
              then w.(files := w.files + {p.storeDir.value}) else w;
    if p.packageVersion == Latest then
      var c := LookupLatest(svc, p.packageName, w1);
      match c.result
      case Ok(v) => Effect(Ok(()), v, c.world)
      case Err(e) => Effect(Err(e), p.packageVersion, c.world)
    else Effect(Ok(()), p.packageVersion, w1)
  }

  /** `exists`: a managed reference is prepared and looks for its cache path;
      an unmanaged one looks for its target path. */
  function ExistsSpec(svc: Services, p: PackageRef, w: World): Effect<bool> {
    if Managed(p) then
      var e := PrepareSpec(svc, p, w);
      if e.result.Err? then Effect(Err(e.result.error), e.version, e.world)
      else Effect(Ok(CachePath(p.storeDir.value, p.packageName, e.version) in e.world.files), e.version, e.world)
    else Effect(Ok(PathExists(p.targetPath, w)), p.packageVersion, w)
  }

  /** The installer request for this reference at `version`: one package. */
  function InstallRequestFor(svc: Services, p: PackageRef, version: string): InstallRequest {
    InstallRequest(p.targetPath, p.storeDir, svc.registryUrl, [PkgSpec(p.packageName, version)])
  }

  /** `install`: prepare, then run the installer for the resolved version. */
  function InstallSpec(svc: Services, p: PackageRef, w: World): Effect<()> {
    var e := PrepareSpec(svc, p, w);
    if e.result.Err? then e
    else
      var c := RunInstaller(svc, InstallRequestFor(svc, p, e.version), e.world);
      Effect(c.result, e.version, c.world)
  }

  /** `update`: prepare, ask the registry for the latest version, install it
      only when its cache path is absent, and point the reference at it. */
  function UpdateSpec(svc: Services, p: PackageRef, w: World): Effect<()> {
    var e := PrepareSpec(svc, p, w);
    if e.result.Err? then e
    else
      var l := LookupLatest(svc, p.packageName, e.world);
      if l.result.Err? then Effect(Err(l.result.error), e.version, l.world)
      else if p.storeDir.None? then Effect(Err(StoreDirUndefined), e.version, l.world)
      else
        var latest := l.result.value;
        if CachePath(p.storeDir.value, p.packageName, latest) !in l.world.files then
          var c := RunInstaller(svc, InstallRequestFor(svc, p, latest), l.world);
          Effect(c.result, if c.result.Ok? then latest else e.version, c.world)
        else Effect(Ok(()), latest, l.world)
  }

  /** The version `prepare` settles on when it succeeds. */
  function Resolved(svc: Services, p: PackageRef): string
    requires p.packageVersion == Latest ==> p.packageName in svc.latest
  {
    if p.packageVersion == Latest then svc.latest[p.packageName] else p.packageVersion
  }

  /** The paths on disk after `prepare` created the store directory if needed. */
  function WithStoreDir(p: PackageRef, files: set<Path>): set<Path> {
    if IsSet(p.storeDir) then files + {p.storeDir.value} else files
  }

  /** `prepare` fails only when `latest` must be resolved and the registry
      rejects; it consults the registry only for `latest`, never runs the
      installer, and only adds the store directory to the disk. */
  lemma PrepareResolvesLatest(svc: Services, p: PackageRef, w: World)
    ensures var e := PrepareSpec(svc, p, w);
      && (e.result.Err? <==> p.packageVersion == Latest && p.packageName !in svc.latest)
      && (e.result.Ok? ==> e.version == Resolved(svc, p))
      && (e.result.Err? ==> e.version == p.packageVersion)
      && e.world.lookups == w.lookups + (if p.packageVersion == Latest then [p.packageName] else [])
      && e.world.installs == w.installs
      && e.world.files == WithStoreDir(p, w.files)
  {
  }

  /** Preparing a reference that is already resolved changes nothing: no
      registry lookup, same version, same disk. */
  lemma PrepareIdempotent(svc: Services, p: PackageRef, w: World)
    requires p.packageName in svc.latest ==> svc.latest[p.packageName] != Latest
    ensures var e1 := PrepareSpec(svc, p, w);
      e1.result.Ok? ==>
        PrepareSpec(svc, p.(packageVersion := e1.version), e1.world) == Effect(Ok(()), e1.version, e1.world)
  {
  }

  /** An unmanaged reference's `exists` reports whether its target path is
      present and touches neither the version nor the world. */
  lemma ExistsUnmanaged(svc: Services, p: PackageRef, w: World)
    requires !Managed(p)
    ensures ExistsSpec(svc, p, w) == Effect(Ok(PathExists(p.targetPath, w)), p.packageVersion, w)
  {
  }

  /** A managed reference's `exists` resolves the version and reports whether
      the cache path of that version was already on disk (creating the store
      directory cannot create the cache path). */
  lemma ExistsManaged(svc: Services, p: PackageRef, w: World)
    requires Managed(p)
    requires p.packageVersion == Latest ==> p.packageName in svc.latest
    ensures var e := ExistsSpec(svc, p, w);
      && e.version == Resolved(svc, p)
      && e.result == Ok(CachePath(p.storeDir.value, p.packageName, Resolved(svc, p)) in w.files)
  {
    CachePathIsNotStoreDir(p.storeDir.value, p.packageName, Resolved(svc, p));
  }

  /** `install` resolves the version first and then calls the installer
      exactly once, for exactly one package carrying the resolved version. */
  lemma InstallUsesResolvedVersion(svc: Services, p: PackageRef, w: World)
    requires p.packageVersion == Latest ==> p.packageName in svc.latest
    ensures var i := InstallSpec(svc, p, w);
      var req := InstallRequestFor(svc, p, Resolved(svc, p));
      && i.version == Resolved(svc, p)
      && i.world.installs == w.installs + [req]
      && req.root == p.targetPath && req.storeDir == p.storeDir
      && req.pkgs == [PkgSpec(p.packageName, Resolved(svc, p))]
      && (i.result.Ok? <==> svc.installer(req, WithStoreDir(p, w.files)).0)
  {
    PrepareResolvesLatest(svc, p, w);
  }

  /** `update` points the reference at the registry's latest version, and
      runs the installer (once, for that version) if and only if that
      version's cache path was absent. A cached version is never reinstalled. */
  lemma {:induction false} UpdateInstallsIffAbsent(svc: Services, p: PackageRef, w: World)
    requires p.storeDir.Some?
    requires p.packageName in svc.latest
    ensures var u := UpdateSpec(svc, p, w);
      var latest := svc.latest[p.packageName];
      var cached := CachePath(p.storeDir.value, p.packageName, latest) in w.files;
      && u.world.installs == w.installs + (if cached then [] else [InstallRequestFor(svc, p, latest)])
      && (u.result.Ok? ==> u.version == latest)
      && (cached ==> u.result.Ok?)
      && (!cached ==> (u.result.Ok? <==> svc.installer(InstallRequestFor(svc, p, latest), WithStoreDir(p, w.files)).0))
  {
    var latest := svc.latest[p.packageName];
    CachePathIsNotStoreDir(p.storeDir.value, p.packageName, latest);
    PrepareResolvesLatest(svc, p, w);
  }

  /** Where `getRootFilePath` starts its manifest search: the cache path of a
      managed reference, otherwise the target path. */
  function RootSearchStart(p: PackageRef): Option<Path> {
    if Managed(p) then Some(CachePath(p.storeDir.value, p.packageName, p.packageVersion)) else p.targetPath
  }

  /** A package reference whose version the source rewrites in place. */
  class Package {
    const targetPath: Option<Path>
    const storeDir: Option<Path>
    const packageName: string
    var packageVersion: string
    const cacheFilePathPrefix: string

    ghost predicate Valid()
      reads this
    {
      cacheFilePathPrefix == CacheFilePathPrefix(packageName)
    }

    /** The reference's current fields, as a value. */
    function Ref(): PackageRef
      reads this
    {
      PackageRef(targetPath, storeDir, packageName, packageVersion)
    }

    constructor (p: PackageRef)
      ensures Valid() && Ref() == p
    {
      targetPath := p.targetPath;
      storeDir := p.storeDir;
      packageName := p.packageName;
      packageVersion := p.packageVersion;
      cacheFilePathPrefix := CacheFilePathPrefix(p.packageName);
    }

    /** `new Package(options)`: throws, and builds nothing, unless `options`
        is an object with a package name. */
    static method New(arg: OptionsArg) returns (r: Result<Package>)
      ensures r.Err? <==> Construct(arg).Err?
      ensures r.Err? ==> r.error == Construct(arg).error
      ensures r.Ok? ==> fresh(r.value) && r.value.Valid() && r.value.Ref() == Construct(arg).value
    {
      match Construct(arg)
      case Err(e) => r := Err(e);
      case Ok(p) =>
        var pkg := new Package(p);
        r := Ok(pkg);
    }

    /** `getSpecificCacheFilePath(version)`: the cache path of this package at
        any version, built from the stored prefix. */
    function GetSpecificCacheFilePath(version: string): (path: Path)
      reads this
      requires Valid() && storeDir.Some?
      ensures path == CachePath(storeDir.value, packageName, version)
    {
      Join(storeDir.value, CacheDirName(cacheFilePathPrefix, version, packageName))
    }

    /** `cacheFilePath`: the cache path of the current version. */
    function CacheFilePath(): (path: Path)
      reads this
      requires Valid() && storeDir.Some?
      ensures path == GetSpecificCacheFilePath(packageVersion)
    {
      Join(storeDir.value, CacheDirName(cacheFilePathPrefix, packageVersion, packageName))
    }

    method Prepare(host: Host) returns (r: Result<()>)
      requires Valid()
      modifies this`packageVersion, host`world
      ensures Valid()
      ensures Effect(r, packageVersion, host.world) == PrepareSpec(host.svc, old(Ref()), old(host.world))
    {
      if IsSet(storeDir) && storeDir.value !in host.world.files {
        host.world := host.world.(files := host.world.files + {storeDir.value});
      }
      r := Ok(());
      if packageVersion == Latest {
        var v := host.GetLatestVersion(packageName);
        match v
        case Ok(latest) => packageVersion := latest;
        case Err(e) => r := Err(e);
      }
    }

    method Exists(host: Host) returns (r: Result<bool>)
      requires Valid()
      modifies this`packageVersion, host`world
      ensures Valid()
      ensures Effect(r, packageVersion, host.world) == ExistsSpec(host.svc, old(Ref()), old(host.world))
    {
      if IsSet(storeDir) {
        var p := Prepare(host);
        if p.Err? {
          return Err(p.error);
        }
        r := Ok(CacheFilePath() in host.world.files);
      } else {
        r := Ok(PathExists(targetPath, host.world));
      }
    }

    method Install(host: Host) returns (r: Result<()>)
      requires Valid()
      modifies this`packageVersion, host`world
      ensures Valid()
      ensures Effect(r, packageVersion, host.world) == InstallSpec(host.svc, old(Ref()), old(host.world))
    {
      r := Prepare(host);
      if r.Err? {
        return;
      }
      var req := InstallRequest(targetPath, storeDir, host.svc.registryUrl, [PkgSpec(packageName, packageVersion)]);
      r := host.Install(req);
    }

    method Update(host: Host) returns (r: Result<()>)
      requires Valid()
      modifies this`packageVersion, host`world
      ensures Valid()
      ensures Effect(r, packageVersion, host.world) == UpdateSpec(host.svc, old(Ref()), old(host.world))
    {
      r := Prepare(host);
      if r.Err? {
        return;
      }
      var latest := host.GetLatestVersion(packageName);
      if latest.Err? {
        return Err(latest.error);
      }
      if storeDir.None? {
        return Err(StoreDirUndefined);
      }
      var latestFilePath := GetSpecificCacheFilePath(latest.value);
      if latestFilePath !in host.world.files {
        var req := InstallRequest(targetPath, storeDir, host.svc.registryUrl, [PkgSpec(packageName, latest.value)]);
        r := host.Install(req);
        if r.Err? {
          return;
        }
        packageVersion := latest.value;
      } else {
        packageVersion := latest.value;
      }
    }

    /** `getRootFilePath`: the entry file named by the nearest manifest above
        the search start, or null when there is no manifest directory or the
        manifest has no `main`. */
    method GetRootFilePath(host: Host) returns (r: Option<Path>)
      requires Valid()
      ensures var dir := host.svc.pkgDir(RootSearchStart(Ref()));
        && (r.None? <==> dir.None? || !IsSet(host.svc.manifestMain(dir.value)))
        && (r.Some? ==> r.value == host.svc.formatPath(Join(dir.value, host.svc.manifestMain(dir.value).value)))
    {
      var start := if IsSet(storeDir) then Some(CacheFilePath()) else targetPath;
      var dir := host.svc.pkgDir(start);
      r := None;
      if dir.Some? {
        var main := host.svc.manifestMain(dir.value);
        if IsSet(main) {
          r := Some(host.svc.formatPath(Join(dir.value, main.value)));
        }
      }
    }
  }
}
