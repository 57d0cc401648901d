/** qvm.py `main`: dispatch on the command line, `qvm vm QVMFILE` or
    `qvm image CLOUD_IMAGE ZVOL`, and the order in which the stages of a VM
    run.

    The host is an input: which paths hold a qvm file (and the documents its
    YAML stream parses into), what `os.path.expanduser` makes of a path, the
    number `randrange(999999)` draws, whether the seed directory can be
    made, what the image import finds, and how each external command ends. */
module QvmMain {
  import opened Wrappers
  import opened YamlValues
  import opened Host
  import opened QvmConfig
  import opened QvmMachine
  import opened QvmImage

  datatype HostState = HostState(
    files: string -> Option<seq<Dict>>,
    expand: string -> string,
    random: nat,
    mkdirOk: bool,
    image: ImageHost,
    run: Runner)

  /** `sys.argv` is `qvm vm QVMFILE`. */
  predicate IsVm(argv: seq<string>) {
    |argv| == 3 && argv[1] == "vm"
  }

  /** `sys.argv` is `qvm image CLOUD_IMAGE ZVOL`. */
  predicate IsImage(argv: seq<string>) {
    |argv| == 4 && argv[1] == "image"
  }

  /** The documents of the qvm file `import_yaml` reads, none when the path
      does not exist. */
  function Documents(argv: seq<string>, host: HostState): seq<Dict>
    requires IsVm(argv)
  {
    var file := host.files(host.expand(argv[2]));
    if file.Some? then file.value else []
  }

  /** What `import_yaml` returns for the qvm file named on the command line. */
  function VmImport(argv: seq<string>, host: HostState): Import
    requires IsVm(argv) && Importable(host.files(host.expand(argv[2])).Some?, Documents(argv, host))
  {
    ImportSpec(host.files(host.expand(argv[2])).Some?, Documents(argv, host))
  }

  /** What the model of `qvm vm` needs of the host: the file's vm document is
      shaped as `import_yaml` expects, an imported bundle as `__init__`
      expects, and the random number lies in `randrange`'s range. */
  predicate HostReady(argv: seq<string>, host: HostState) {
    IsVm(argv) ==>
      && Importable(host.files(host.expand(argv[2])).Some?, Documents(argv, host))
      && (VmImport(argv, host).Imported? ==> Provisionable(VmImport(argv, host).bundle))
      && host.random < RandomBound
  }

  /** The descriptor `VirtualMachine(yaml_doc)` builds for `qvm vm`. */
  function VmDescriptor(argv: seq<string>, host: HostState): (d: Descriptor)
    requires IsVm(argv) && HostReady(argv, host) && VmImport(argv, host).Imported?
    ensures Ready(d)
  {
    DeriveReady(VmImport(argv, host).bundle, host.random);
    Derive(VmImport(argv, host).bundle, host.random)
  }

  /** The stages `main` runs for an imported bundle, as one trace. */
  function VmTrace(bundle: Bundle, random: nat, mkdirOk: bool, run: Runner): Trace
    requires Provisionable(bundle)
  {
    DeriveReady(bundle, random);
    var s := VmRun(Derive(bundle, random), mkdirOk, run);
    Trace(Returned(s.code), s.events)
  }

  /** `main()`: usage and 1 for fewer than three arguments or an unknown
      shape; for `vm`, 1 when the file does not import, and otherwise the
      VM's stages; for `image`, the import of `CLOUD_IMAGE` into `ZVOL`,
      `~` expanded in the ZVOL argument, after which `main` returns 0
      whatever the import returned. */
  function MainSpec(argv: seq<string>, host: HostState): Trace
    requires HostReady(argv, host)
  {
    if |argv| < 3 then Trace(Returned(1), [])
    else if IsVm(argv) then
      var imported := VmImport(argv, host);
      if imported.ImportFailed? then Trace(Returned(1), [])
      else VmTrace(imported.bundle, host.random, host.mkdirOk, host.run)
    else if IsImage(argv) then
      var r := ImageSpec(host.expand(argv[3]), argv[2], None, host.image, host.run);
      Trace(if r.exit.Uncaught? then r.exit else Returned(0), r.events)
    else Trace(Returned(1), [])
  }

  /** `main()`, step by step. */
  method Dispatch(argv: seq<string>, host: HostState) returns (t: Trace)
    requires HostReady(argv, host)
    ensures t == MainSpec(argv, host)
  {
    if |argv| < 3 {
      return Trace(Returned(1), []);
    }
    if argv[1] == "vm" && |argv| == 3 {
      var path := host.expand(argv[2]);
      var file := host.files(path);
      var yamlDoc := ImportYaml(file.Some?, if file.Some? then file.value else []);
      if !yamlDoc.Imported? {
        return Trace(Returned(1), []);
      }
      t := ProvisionVm(yamlDoc.bundle, host.random, host.mkdirOk, host.run);
    } else if argv[1] == "image" && |argv| == 4 {
      var r := ImportCloudImg(host.expand(argv[3]), argv[2], None, host.image, host.run);
      if r.exit.Uncaught? {
        return r;
      }
      return Trace(Returned(0), r.events);
    } else {
      return Trace(Returned(1), []);
    }
  }

  /** The `vm` branch of `main()` once the file imported: build the
      VirtualMachine and run its stages. */
  method ProvisionVm(bundle: Bundle, random: nat, mkdirOk: bool, run: Runner) returns (t: Trace)
    requires Provisionable(bundle) && random < RandomBound
    ensures t == VmTrace(bundle, random, mkdirOk, run)
  {
    var vm := new VirtualMachine(bundle, random);
    t := RunStages(vm, mkdirOk, run);
  }

  /** The stages of `qvm vm` in order, returning 1 at the first that fails
      and 0 after the last. `build_cmd()` always returns 0, so the check of
      its result is not part of this method. */
  method RunStages(vm: VirtualMachine, mkdirOk: bool, run: Runner) returns (t: Trace)
    requires vm.Valid()
    modifies vm`cmd
    ensures vm.Fields() == old(vm.Fields())
    ensures var s := VmRun(vm.Fields(), mkdirOk, run); t == Trace(Returned(s.code), s.events)
  {
    var iso := vm.CreateCloudinitIso(mkdirOk, run);
    if iso.code == 1 {
      return Trace(Returned(1), iso.events);
    }
    var clone := vm.CloneBaseZvol(run);
    if clone.code == 1 {
      return Trace(Returned(1), iso.events + clone.events);
    }
    var _ := vm.BuildCmd();
    var create := vm.Create(run);
    var events := iso.events + clone.events + create.events;
    if create.code == 1 {
      return Trace(Returned(1), events);
    }
    assert create.code == 0;
    return Trace(Returned(0), events);
  }

  /** Fewer than three arguments, or any shape other than `vm QVMFILE` and
      `image CLOUD_IMAGE ZVOL`, returns 1 and touches nothing; `main` only
      ever returns 0 or 1, or lets a ZFS exception escape from an image
      import. */
  lemma MainDispatchCases(argv: seq<string>, host: HostState)
    requires HostReady(argv, host)
    ensures var t := MainSpec(argv, host);
            && (!IsVm(argv) && !IsImage(argv) ==> t == Trace(Returned(1), []))
            && (t.exit.Returned? ==> t.exit.code == 0 || t.exit.code == 1)
            && (t.exit.Uncaught? ==> IsImage(argv))
  {
    if IsVm(argv) && VmImport(argv, host).Imported? {
      var d := VmDescriptor(argv, host);
      IsoStageFacts(d, host.mkdirOk, host.run);
      CloneStageFacts(d, host.run);
      CreateGate(d, InstallCmd(d.vm), host.run);
    }
  }

  /** `qvm vm QVMFILE`: a file that does not import returns 1 before any
      effect; otherwise the four stages run in order through the pipeline
      that stops at the first returning 1, and `main` returns what that
      pipeline returns. */
  lemma MainVm(argv: seq<string>, host: HostState)
    requires IsVm(argv) && HostReady(argv, host)
    ensures var t := MainSpec(argv, host);
            && (VmImport(argv, host).ImportFailed? ==> t == Trace(Returned(1), []))
            && (VmImport(argv, host).Imported? ==>
                  var p := Pipeline(VmStages(VmDescriptor(argv, host), host.mkdirOk, host.run));
                  t == Trace(Returned(p.code), p.events))
  {
    var imported := VmImport(argv, host);
    if imported.Imported? {
      assert MainSpec(argv, host) == VmTrace(imported.bundle, host.random, host.mkdirOk, host.run);
      DeriveReady(imported.bundle, host.random);
      VmRunIsPipeline(Derive(imported.bundle, host.random), host.mkdirOk, host.run);
    }
  }

  /** `qvm image CLOUD_IMAGE ZVOL` imports `CLOUD_IMAGE` into the zvol named
      by the expanded ZVOL argument with the default properties; `main`
      then returns 0 whether the import succeeded or failed, unless a ZFS
      exception escaped. */
  lemma MainImage(argv: seq<string>, host: HostState)
    requires IsImage(argv)
    ensures var t := MainSpec(argv, host);
            var r := ImageSpec(host.expand(argv[3]), argv[2], None, host.image, host.run);
            && t.events == r.events
            && (r.exit.Returned? ==> t.exit == Returned(0))
            && (r.exit.Uncaught? ==> t.exit == r.exit)
  {
  }
}
