/** The world outside the core: the paths present on disk, the listing of the
    current directory, and the collaborators the core calls (package registry,
    installer, manifest lookup, version parser, template catalog, prompts).
    Every call into a collaborator that the core's contracts talk about is
    recorded in the world, so that "the installer ran" can be stated. */
module Environment {
  import opened Common

  type Path = string

  /** `path.resolve(dir, segment)`, modelled as a plain separator join. */
  function Join(dir: Path, segment: string): Path {
    dir + "/" + segment
  }

  /** One `{name, version}` entry of an installer request. */
  datatype PkgSpec = PkgSpec(name: string, version: string)

  /** The argument object handed to the installer. */
  datatype InstallRequest = InstallRequest(
    root: Option<Path>,
    storeDir: Option<Path>,
    registry: string,
    pkgs: seq<PkgSpec>)

  /** The prompts the init workflow can put to the user. */
  datatype Question =
    | ContinueQuestion   // "the directory is not empty, continue?"
    | ClearQuestion      // "clear the current directory?"
    | TypeQuestion       // project or component
    | ProjectQuestions   // name, version and template, asked as one form

  /** A template descriptor as the catalog delivers it. */
  datatype Template = Template(npmName: string, name: string, version: string)

  /** The observable state: paths on disk, the entries of the current
      directory, and the logs of registry lookups, installer runs and prompts. */
  datatype World = World(
    files: set<Path>,
    cwd: seq<string>,
    lookups: seq<string>,
    installs: seq<InstallRequest>,
    asked: seq<Question>)

  /** The collaborators, with no stated internals. */
  datatype Services = Services(
    latest: map<string, string>,        // registry: latest published version; a missing name rejects
    registryUrl: string,                // the default registry URL
    installer: (InstallRequest, set<Path>) -> (bool, set<Path>),  // whether it succeeded, and the paths it leaves either way
    pkgDir: Option<Path> -> Option<Path>,  // nearest directory holding a manifest (None argument: the working directory)
    manifestMain: Path -> Option<string>,  // the `main` entry of the manifest in a directory
    formatPath: Path -> Path,           // separator normalisation of the entry path
    semverValid: string -> Option<string>, // the normalised version, None when not a valid version
    catalog: Option<seq<Template>>,     // the template list, None when absent
    home: Path,                         // the user's home directory
    workingDir: Path)                   // the current working directory, whose listing is `World.cwd`

  /** The result of a collaborator call together with the world after it. */
  datatype Call<T> = Call(result: Result<T>, world: World)

  /** A registry lookup of the latest version: always logged, rejects for an unknown name. */
  function LookupLatest(svc: Services, name: string, w: World): (c: Call<string>)
    ensures c.world.lookups == w.lookups + [name]
    ensures c.world.files == w.files && c.world.installs == w.installs
    ensures c.result.Ok? <==> name in svc.latest
    ensures c.result.Ok? ==> c.result.value == svc.latest[name]
  {
    var w' := w.(lookups := w.lookups + [name]);
    if name in svc.latest then Call(Ok(svc.latest[name]), w') else Call(Err(LatestVersionUnavailable(name)), w')
  }

  /** One installer run: always logged; the disk is what the installer
      leaves, whether it succeeded or not (a failed run may leave files behind). */
  function RunInstaller(svc: Services, req: InstallRequest, w: World): (c: Call<()>)
    ensures c.world.installs == w.installs + [req]
    ensures c.world.lookups == w.lookups && c.world.cwd == w.cwd && c.world.asked == w.asked
    ensures c.result.Ok? <==> svc.installer(req, w.files).0
    ensures c.result.Err? ==> c.result.error == InstallFailed
    ensures c.world.files == svc.installer(req, w.files).1
  {
    var (accepted, files) := svc.installer(req, w.files);
    var w' := w.(installs := w.installs + [req], files := files);
    if accepted then Call(Ok(()), w') else Call(Err(InstallFailed), w')
  }

  /** Whether `p` lies strictly inside the directory `dir`. */
  predicate Inside(dir: Path, p: Path) {
    |dir| + 1 < |p| && p[..|dir| + 1] == dir + "/"
  }

  /** `fse.emptyDirSync(dir)` on the working directory: its listing becomes
      empty and every path inside it leaves the disk; the directory itself
      and every path outside it stay. */
  function EmptyDir(dir: Path, w: World): (r: World)
    ensures r.cwd == [] && r.files <= w.files
    ensures forall p :: p in w.files ==> (p in r.files <==> !Inside(dir, p))
    ensures r.lookups == w.lookups && r.installs == w.installs && r.asked == w.asked
  {
    w.(cwd := [], files := set p | p in w.files && !Inside(dir, p))
  }

  /** `pathExists` on an optional path: an absent path never exists. */
  predicate PathExists(p: Option<Path>, w: World) {
    p.Some? && p.value in w.files
  }

  /** The host process: its collaborators and the current state of the world. */
  class Host {
    const svc: Services
    var world: World

    constructor (svc: Services, world: World)
      ensures this.svc == svc && this.world == world
    {
      this.svc := svc;
      this.world := world;
    }

    method GetLatestVersion(name: string) returns (r: Result<string>)
      modifies this`world
      ensures Call(r, world) == LookupLatest(svc, name, old(world))
    {
      var c := LookupLatest(svc, name, world);
      world := c.world;
      r := c.result;
    }

    method Install(req: InstallRequest) returns (r: Result<()>)
      modifies this`world
      ensures Call(r, world) == RunInstaller(svc, req, old(world))
    {
      var c := RunInstaller(svc, req, world);
      world := c.world;
      r := c.result;
    }
  }
}
