/** qvm.py `VirtualMachine`: the VM descriptor derived from an imported
    bundle, the cloud-init seed image, the clone of the base volume, the
    virt-install command and its validate-then-install run, each undoing the
    clone when it fails. */
module QvmMachine {
  import opened Wrappers
  import opened Strings
  import opened YamlValues
  import opened Host
  import opened ZfsCli
  import opened QvmConfig

  /** `randrange(999999)` picks from 0 to 999998. */
  const RandomBound := 999999

  /** The seed image's directory, `/tmp/qvm<n>`. */
  function SeedDir(random: nat): string {
    "/tmp/qvm" + NatToString(random)
  }

  /** `'/tmp/qvm{}/seed.iso'.format(str(n))` */
  function CdromPath(random: nat): string {
    SeedDir(random) + "/seed.iso"
  }

  /** `os.path.dirname` of the seed image is its directory. */
  lemma CdromDirectory(random: nat)
    ensures Dirname(CdromPath(random)) == SeedDir(random)
  {
    var digits := NatToString(random);
    assert SeedDir(random)[|SeedDir(random)| - 1] == digits[|digits| - 1];
    assert CdromPath(random) == SeedDir(random) + "/" + "seed.iso";
    DirnameOf(SeedDir(random), "seed.iso");
  }

  /** Different random numbers give different seed directories. */
  lemma SeedDirsDistinct(a: nat, b: nat)
    requires a != b
    ensures SeedDir(a) != SeedDir(b)
  {
    if SeedDir(a) == SeedDir(b) {
      assert NatToString(a) == SeedDir(a)[8..] == SeedDir(b)[8..] == NatToString(b);
      NatToStringInjective(a, b);
    }
  }

  /** `zvol['base'] + '@base'`: the snapshot to clone. */
  function BaseSnapshot(base: string): string {
    base + "@base"
  }

  /** `'{}/{}'.format(zvol_base.rpartition('/')[0], name)`: the volume to
      create, beside the base image. */
  function TargetVolume(zvolBase: string, vmName: string): string {
    RPartition(zvolBase, '/').0 + "/" + vmName
  }

  /** The new volume is the base image's sibling: same parent dataset, the
      VM's name. */
  lemma TargetIsSibling(parent: string, image: string, vmName: string)
    requires '/' !in image
    ensures TargetVolume(BaseSnapshot(parent + "/" + image), vmName) == parent + "/" + vmName
  {
    assert BaseSnapshot(parent + "/" + image) == parent + ['/'] + (image + "@base");
    RPartitionAt(parent, '/', image + "@base");
  }

  /** A base without any `/` leaves an empty parent in front of the slash. */
  lemma TargetWithoutParent(image: string, vmName: string)
    requires '/' !in image
    ensures TargetVolume(BaseSnapshot(image), vmName) == "/" + vmName
  {
    assert '/' !in BaseSnapshot(image);
  }

  /** `'/dev/zvol/' + volume` */
  function DevicePath(volume: string): string {
    "/dev/zvol/" + volume
  }

  /** Every nested dictionary holds only scalars, as `str()` of each child in
      `build_cmd` expects. */
  predicate NestedFlat(d: Dict) {
    forall i | 0 <= i < |d| :: d[i].1.VMap? ==> Flat(d[i].1.entries)
  }

  /** What `VirtualMachine(qvm_dict)` needs of an imported bundle: `zvol` and
      `disk` are dictionaries, `base` a string and `name` present, as the
      indexing and `+` of `__init__` need, and every value formatted into a
      command a scalar. */
  predicate Provisionable(b: Bundle) {
    && Lookup(b.vm, "disk").Some? && Lookup(b.vm, "disk").value.VMap?
    && b.zvol.VMap?
    && Lookup(b.zvol.entries, "base").Some? && Lookup(b.zvol.entries, "base").value.VStr?
    && Flat(b.zvol.entries)
    && Lookup(b.vm, "name").Some? && !Lookup(b.vm, "name").value.VMap?
    && NestedFlat(b.vm)
  }

  /** The fields `__init__` sets. */
  datatype Descriptor = Descriptor(
    userdata: Dict, metadata: Dict, vm: Dict, zvol: Dict, zvolBase: string, zvolVm: string)

  /** The descriptor `__init__` builds from a bundle and a random number. */
  function Derive(b: Bundle, random: nat): Descriptor
    requires Provisionable(b)
  {
    var withCdrom := Put(b.vm, "cdrom", VStr(CdromPath(random)));
    var zvolBase := BaseSnapshot(Lookup(b.zvol.entries, "base").value.s);
    var zvolVm := TargetVolume(zvolBase, Str(Lookup(withCdrom, "name").value));
    var disk := Put(Disk(withCdrom), "path", VStr(DevicePath(zvolVm)));
    Descriptor(b.userdata, b.metadata, Put(withCdrom, "disk", VMap(disk)), Remove(b.zvol.entries, "base"), zvolBase, zvolVm)
  }

  /** After `__init__`: the snapshot is `base@base` and `base` is gone from the
      volume properties; the target volume lies beside the base image and is
      named after the VM; `cdrom` is the seed image and `disk.path` the
      target's block device; nothing else in `vm` or `disk` changed. */
  lemma DeriveShape(b: Bundle, random: nat)
    requires Provisionable(b)
    ensures var d := Derive(b, random);
            && d.zvolBase == Lookup(b.zvol.entries, "base").value.s + "@base"
            && !Has(d.zvol, "base")
            && (forall k | k != "base" :: Lookup(d.zvol, k) == Lookup(b.zvol.entries, k))
            && d.zvolVm == RPartition(d.zvolBase, '/').0 + "/" + Str(Lookup(b.vm, "name").value)
            && Lookup(d.vm, "cdrom") == Some(VStr("/tmp/qvm" + NatToString(random) + "/seed.iso"))
            && Lookup(d.vm, "disk").Some? && Lookup(d.vm, "disk").value.VMap?
            && Lookup(Disk(d.vm), "path") == Some(VStr("/dev/zvol/" + d.zvolVm))
            && (forall k | k != "path" :: Lookup(Disk(d.vm), k) == Lookup(Disk(b.vm), k))
            && (forall k | k != "cdrom" && k != "disk" :: Lookup(d.vm, k) == Lookup(b.vm, k))
  {
  }

  /** What the later stages read from the descriptor: `cdrom` is a string,
      `disk` a dictionary, and every value `str()` meets a scalar. */
  predicate Ready(d: Descriptor) {
    && Lookup(d.vm, "cdrom").Some? && Lookup(d.vm, "cdrom").value.VStr?
    && Lookup(d.vm, "disk").Some? && Lookup(d.vm, "disk").value.VMap?
    && NestedFlat(d.vm) && Flat(d.zvol)
  }

  /** A nested dictionary found in a NestedFlat dictionary holds scalars. */
  lemma NestedLookup(d: Dict, k: string)
    requires NestedFlat(d) && Lookup(d, k).Some? && Lookup(d, k).value.VMap?
    ensures Flat(Lookup(d, k).value.entries)
  {
    var i :| 0 <= i < |d| && d[i] == (k, Lookup(d, k).value);
  }

  /** Putting a scalar keeps a dictionary flat. */
  lemma PutFlat(d: Dict, k: string, v: Value)
    requires Flat(d) && !v.VMap?
    ensures Flat(Put(d, k, v))
  {
    forall i | 0 <= i < |Put(d, k, v)| ensures !Put(d, k, v)[i].1.VMap? {
      PutPairs(d, k, v, i);
    }
  }

  /** Putting a scalar or a flat dictionary keeps nested dictionaries flat. */
  lemma PutNestedFlat(d: Dict, k: string, v: Value)
    requires NestedFlat(d) && (v.VMap? ==> Flat(v.entries))
    ensures NestedFlat(Put(d, k, v))
  {
    forall i | 0 <= i < |Put(d, k, v)| && Put(d, k, v)[i].1.VMap? ensures Flat(Put(d, k, v)[i].1.entries) {
      PutPairs(d, k, v, i);
    }
  }

  /** Each pair of `Put(d, k, v)` is `(k, v)` or a pair of `d` at the same
      place. */
  lemma PutPairs(d: Dict, k: string, v: Value, i: nat)
    requires i < |Put(d, k, v)|
    ensures Put(d, k, v)[i] == (k, v) || (i < |d| && Put(d, k, v)[i] == d[i])
  {
  }

  /** The descriptor `__init__` builds is ready for the later stages. */
  lemma DeriveReady(b: Bundle, random: nat)
    requires Provisionable(b)
    ensures Ready(Derive(b, random))
  {
    var d := Derive(b, random);
    var withCdrom := Put(b.vm, "cdrom", VStr(CdromPath(random)));
    PutNestedFlat(b.vm, "cdrom", VStr(CdromPath(random)));
    NestedLookup(withCdrom, "disk");
    PutFlat(Disk(withCdrom), "path", VStr(DevicePath(d.zvolVm)));
    PutNestedFlat(withCdrom, "disk", VMap(Put(Disk(withCdrom), "path", VStr(DevicePath(d.zvolVm)))));
    forall i | 0 <= i < |d.zvol| ensures !d.zvol[i].1.VMap? {
      assert d.zvol[i] in b.zvol.entries;
    }
  }

  /** The `--key` flag of a virt-install option. */
  function Flag(key: string): string {
    "--" + key
  }

  /** The text `build_cmd` grows for a nested option: `k=v,` per child, the
      trailing comma included. */
  function ChildText(children: Dict): string
    requires Flat(children)
  {
    if children == [] then ""
    else
      var init := children[..|children| - 1];
      var (k, v) := children[|children| - 1];
      ChildText(init) + k + "=" + Str(v) + ","
  }

  /** The arguments one option of `vm` contributes: a mapping gives its flag
      and its children's text, a boolean its flag alone, anything else its
      flag and `str()` of its value. */
  function EntryArgs(key: string, value: Value): seq<string>
    requires value.VMap? ==> Flat(value.entries)
  {
    match value
    case VMap(children) => [Flag(key), ChildText(children)]
    case VBool(_) => [Flag(key)]
    case _ => [Flag(key), Str(value)]
  }

  /** The arguments of all options, in iteration order. */
  function EntriesArgs(vm: Dict): seq<string>
    requires NestedFlat(vm)
  {
    if vm == [] then []
    else
      var init := vm[..|vm| - 1];
      assert forall i | 0 <= i < |init| :: init[i] == vm[i];
      EntriesArgs(init) + EntryArgs(vm[|vm| - 1].0, vm[|vm| - 1].1)
  }

  /** The command `build_cmd` leaves in `self.cmd`. */
  function InstallCmd(vm: Dict): seq<string>
    requires NestedFlat(vm)
  {
    ["virt-install", "--noautoconsole"] + EntriesArgs(vm)
  }

  /** How many options of `vm` are booleans. */
  function BoolCount(vm: Dict): nat {
    if vm == [] then 0 else BoolCount(vm[..|vm| - 1]) + if vm[|vm| - 1].1.VBool? then 1 else 0
  }

  lemma NestedFlatSlice(d: Dict, lo: nat, hi: nat)
    requires NestedFlat(d) && lo <= hi <= |d|
    ensures NestedFlat(d[lo..hi])
  {
    forall i | 0 <= i < hi - lo && d[lo..hi][i].1.VMap? ensures Flat(d[lo..hi][i].1.entries) {
      assert d[lo..hi][i] == d[lo + i];
    }
  }

  /** One more option extends the command by that option's arguments. */
  lemma InstallCmdStep(vm: Dict, i: nat)
    requires NestedFlat(vm) && i < |vm|
    ensures NestedFlat(vm[..i]) && NestedFlat(vm[..i + 1])
    ensures vm[i].1.VMap? ==> Flat(vm[i].1.entries)
    ensures InstallCmd(vm[..i + 1]) == InstallCmd(vm[..i]) + EntryArgs(vm[i].0, vm[i].1)
  {
    NestedFlatSlice(vm, 0, i);
    NestedFlatSlice(vm, 0, i + 1);
    assert vm[..i + 1][..i] == vm[..i];
    assert vm[..i + 1][i] == vm[i];
  }

  /** Appending two arguments one after the other appends the pair. */
  lemma AppendTwice(front: seq<string>, x: string, y: string)
    ensures front + [x] + [y] == front + [x, y]
  {
  }

  /** One more child extends the text by `k=v,`. */
  lemma ChildTextStep(children: Dict, j: nat)
    requires Flat(children) && j < |children|
    ensures Flat(children[..j]) && Flat(children[..j + 1])
    ensures ChildText(children[..j + 1]) == ChildText(children[..j]) + children[j].0 + "=" + Str(children[j].1) + ","
  {
    FlatSlice(children, 0, j);
    FlatSlice(children, 0, j + 1);
    assert children[..j + 1][..j] == children[..j];
    assert children[..j + 1][j] == children[j];
  }

  /** The command for the first `n` options is a prefix of the whole
      command: appending options never rewrites earlier arguments. */
  lemma {:induction false} InstallCmdPrefix(vm: Dict, n: nat)
    requires NestedFlat(vm) && n <= |vm|
    ensures NestedFlat(vm[..n]) && InstallCmd(vm[..n]) <= InstallCmd(vm)
    decreases |vm| - n
  {
    if n == |vm| {
      assert vm[..n] == vm;
    } else {
      InstallCmdPrefix(vm, n + 1);
      InstallCmdStep(vm, n);
    }
  }

  /** `build_cmd` starts with `virt-install --noautoconsole`, and option `i`
      appears as `--key` followed by its children's text, by nothing, or by
      `str(value)`. */
  lemma InstallCmdShape(vm: Dict, i: nat) returns (p: nat)
    requires NestedFlat(vm) && i < |vm|
    ensures InstallCmd(vm)[..2] == ["virt-install", "--noautoconsole"]
    ensures 2 <= p < |InstallCmd(vm)| && InstallCmd(vm)[p] == "--" + vm[i].0
    ensures vm[i].1.VMap? ==> p + 1 < |InstallCmd(vm)| && InstallCmd(vm)[p + 1] == ChildText(vm[i].1.entries)
    ensures !vm[i].1.VMap? && !vm[i].1.VBool? ==> p + 1 < |InstallCmd(vm)| && InstallCmd(vm)[p + 1] == Str(vm[i].1)
  {
    InstallCmdStep(vm, i);
    InstallCmdPrefix(vm, i + 1);
    var pre, entry := InstallCmd(vm[..i]), EntryArgs(vm[i].0, vm[i].1);
    p := |pre|;
    PieceAt(pre, entry, [], 0);
    if !vm[i].1.VBool? {
      PieceAt(pre, entry, [], 1);
    }
  }

  /** A piece of a concatenation sits after the pieces before it. */
  lemma PieceAt(front: seq<string>, piece: seq<string>, back: seq<string>, k: nat)
    requires k < |piece|
    ensures |front| + k < |front + piece + back| && (front + piece + back)[|front| + k] == piece[k]
  {
  }

  /** Two arguments per option, except one per boolean option. */
  lemma {:induction false} InstallCmdLength(vm: Dict)
    requires NestedFlat(vm)
    ensures BoolCount(vm) <= |vm|
    ensures |InstallCmd(vm)| == 2 + BoolCount(vm) + 2 * (|vm| - BoolCount(vm))
  {
    if vm != [] {
      var init := vm[..|vm| - 1];
      assert forall i | 0 <= i < |init| :: init[i] == vm[i];
      InstallCmdLength(init);
    }
  }

  /** A boolean option's value never reaches the command: `False` gives the
      same flag as `True`. */
  lemma BoolValueIgnored(vm: Dict, i: nat, b: bool)
    requires NestedFlat(vm) && i < |vm| && vm[i].1.VBool?
    ensures NestedFlat(vm[i := (vm[i].0, VBool(b))])
    ensures InstallCmd(vm[i := (vm[i].0, VBool(b))]) == InstallCmd(vm)
  {
    var vm' := vm[i := (vm[i].0, VBool(b))];
    assert NestedFlat(vm') by {
      forall j | 0 <= j < |vm'| && vm'[j].1.VMap? ensures Flat(vm'[j].1.entries) { assert vm'[j] == vm[j]; }
    }
    SameInstallCmd(vm, vm');
  }

  /** Options that give the same arguments one by one give the same
      command. */
  lemma {:induction false} SameInstallCmd(a: Dict, b: Dict)
    requires NestedFlat(a) && NestedFlat(b) && |a| == |b|
    requires forall j | 0 <= j < |a| :: EntryArgs(a[j].0, a[j].1) == EntryArgs(b[j].0, b[j].1)
    ensures InstallCmd(a) == InstallCmd(b)
  {
    if a != [] {
      var n := |a| - 1;
      InstallCmdStep(a, n);
      InstallCmdStep(b, n);
      assert a[..n + 1] == a && b[..n + 1] == b;
      SameInstallCmd(a[..n], b[..n]);
    }
  }

  /** What a stage of the vm pipeline returned, and the effects it asked the
      host for, in order. */
  datatype Stage = Stage(code: int, events: seq<Event>)

  /** `genisoimage -output <cdrom> -volid cidata -joliet -rock <dir>user-data
      <dir>meta-data` */
  function IsoArgs(cdrom: string, dir: string): seq<string> {
    ["genisoimage", "-output", cdrom, "-volid", "cidata", "-joliet", "-rock", dir + "user-data", dir + "meta-data"]
  }

  /** `zvol_destroy(zvol_vm, ...)`: the attempt to undo the clone. Its own
      failure is only reported. */
  function Rollback(d: Descriptor): Event {
    Exec(DestroyArgs(d.zvolVm))
  }

  /** `create_cloudinit_iso`: make the seed directory, write both cloud-init
      documents into it, build the image; 1 if the directory or the image
      cannot be made. */
  function IsoStage(d: Descriptor, mkdirOk: bool, run: Runner): Stage
    requires Ready(d)
  {
    var cdrom := Lookup(d.vm, "cdrom").value.s;
    var dir := Dirname(cdrom) + "/";
    if !mkdirOk then Stage(1, [MakeDir(dir)])
    else
      var iso := IsoArgs(cdrom, dir);
      Stage(if run(iso).Succeeded? then 0 else 1,
            [MakeDir(dir), WriteYaml(dir + "user-data", d.userdata), WriteYaml(dir + "meta-data", d.metadata), Exec(iso)])
  }

  /** `clone_base_zvol`: clone the base snapshot with the remaining volume
      properties; on any failure try to destroy the target and return 1. */
  function CloneStage(d: Descriptor, run: Runner): Stage
    requires Ready(d)
  {
    var clone := CloneArgs(d.zvolVm, d.zvolBase, d.zvol);
    if RunCmd(clone, run).None? then Stage(0, [Exec(clone)]) else Stage(1, [Exec(clone), Rollback(d)])
  }

  /** `create()`: validate with `--dry-run`, then install; a failure of
      either destroys the target and returns 1. */
  function CreateStage(d: Descriptor, cmd: seq<string>, run: Runner): Stage {
    var dry := cmd + ["--dry-run"];
    if run(dry).Failed? then Stage(1, [Exec(dry), Rollback(d)])
    else if run(cmd).Failed? then Stage(1, [Exec(dry), Exec(cmd), Rollback(d)])
    else Stage(0, [Exec(dry), Exec(cmd)])
  }

  /** The `create()` gate: the install runs only after a successful
      validation, success needs both runs to succeed, and every failure ends
      with the attempt to destroy the target. */
  lemma CreateGate(d: Descriptor, cmd: seq<string>, run: Runner)
    requires |cmd| > 0 && cmd[0] == "virt-install"
    ensures var s := CreateStage(d, cmd, run);
            && s.events[0] == Exec(cmd + ["--dry-run"])
            && (Exec(cmd) in s.events <==> run(cmd + ["--dry-run"]).Succeeded?)
            && (s.code == 0 <==> run(cmd + ["--dry-run"]).Succeeded? && run(cmd).Succeeded?)
            && (s.code == 1 <==> s.events[|s.events| - 1] == Rollback(d))
            && (s.code == 0 || s.code == 1)
  {
    var s := CreateStage(d, cmd, run);
    assert |cmd + ["--dry-run"]| != |cmd|;
    assert Rollback(d).argv[0] == "zfs";
    if run(cmd + ["--dry-run"]).Failed? {
      assert Exec(cmd) != Exec(cmd + ["--dry-run"]);
      assert Exec(cmd) !in s.events;
    }
    assert Exec(cmd) != Rollback(d);
  }

  /** Runs stages in order and stops after the first that returns 1; the
      result is 1 if some stage failed, otherwise 0. */
  function Pipeline(stages: seq<Stage>): Stage {
    if stages == [] then Stage(0, [])
    else if stages[0].code == 1 then Stage(1, stages[0].events)
    else
      var rest := Pipeline(stages[1..]);
      Stage(rest.code, stages[0].events + rest.events)
  }

  /** The events of the first `n` stages. */
  function EventsOf(stages: seq<Stage>, n: nat): seq<Event>
    requires n <= |stages|
  {
    if n == 0 then [] else EventsOf(stages, n - 1) + stages[n - 1].events
  }

  /** The pipeline stops at the first stage that returns 1, keeping the
      effects of it and of the stages before it; if none does, every stage
      runs and the result is 0. */
  lemma {:induction false} PipelineStops(stages: seq<Stage>)
    ensures (forall i | 0 <= i < |stages| :: stages[i].code != 1) ==>
              Pipeline(stages) == Stage(0, EventsOf(stages, |stages|))
    ensures forall i | 0 <= i < |stages| && stages[i].code == 1 && (forall j | 0 <= j < i :: stages[j].code != 1) ::
              Pipeline(stages) == Stage(1, EventsOf(stages, i + 1))
  {
    if stages != [] {
      var rest := stages[1..];
      PipelineStops(rest);
      EventsShift(stages, |stages|);
      forall i | 0 <= i < |stages| && stages[i].code == 1 && (forall j | 0 <= j < i :: stages[j].code != 1)
        ensures Pipeline(stages) == Stage(1, EventsOf(stages, i + 1))
      {
        EventsShift(stages, i + 1);
        if i > 0 {
          assert rest[i - 1].code == 1;
          assert forall j | 0 <= j < i - 1 :: rest[j].code != 1 by {
            forall j | 0 <= j < i - 1 ensures rest[j].code != 1 { assert rest[j] == stages[j + 1]; }
          }
        } else {
          assert EventsOf(stages, 1) == [] + stages[0].events;
        }
      }
      if forall i | 0 <= i < |stages| :: stages[i].code != 1 {
        assert stages[0].code != 1;
        assert forall i | 0 <= i < |rest| :: rest[i].code != 1 by {
          forall i | 0 <= i < |rest| ensures rest[i].code != 1 { assert rest[i] == stages[i + 1]; }
        }
      }
    }
  }

  /** Counting events from the second stage on. */
  lemma {:induction false} EventsShift(stages: seq<Stage>, n: nat)
    requires 0 < n <= |stages|
    ensures EventsOf(stages, n) == stages[0].events + EventsOf(stages[1..], n - 1)
  {
    if n > 1 {
      EventsShift(stages, n - 1);
      assert stages[1..][n - 2] == stages[n - 1];
    } else {
      assert EventsOf(stages, 1) == [] + stages[0].events;
    }
  }

  /** The `qvm vm` pipeline after `__init__`: seed image, clone, `build_cmd`
      (which always returns 0), then `create()`, stopping at the first stage
      that returns 1. */
  function VmRun(d: Descriptor, mkdirOk: bool, run: Runner): Stage
    requires Ready(d)
  {
    var iso := IsoStage(d, mkdirOk, run);
    if iso.code == 1 then iso
    else
      var clone := CloneStage(d, run);
      if clone.code == 1 then Stage(1, iso.events + clone.events)
      else
        var create := CreateStage(d, InstallCmd(d.vm), run);
        Stage(create.code, iso.events + clone.events + create.events)
  }

  /** The same four stages as a list, for Pipeline. */
  function VmStages(d: Descriptor, mkdirOk: bool, run: Runner): seq<Stage>
    requires Ready(d)
  {
    [IsoStage(d, mkdirOk, run), CloneStage(d, run), Stage(0, []), CreateStage(d, InstallCmd(d.vm), run)]
  }

  /** `main`'s chain of `if stage() == 1: return 1` is the pipeline of the
      four stages, so it stops at the first failing one. */
  lemma VmRunIsPipeline(d: Descriptor, mkdirOk: bool, run: Runner)
    requires Ready(d)
    ensures VmRun(d, mkdirOk, run) == Pipeline(VmStages(d, mkdirOk, run))
  {
    CreateGate(d, InstallCmd(d.vm), run);
    FourStages(IsoStage(d, mkdirOk, run), CloneStage(d, run), CreateStage(d, InstallCmd(d.vm), run));
  }

  /** Pipeline of three stages with a stage that always returns 0 before the
      last. */
  lemma FourStages(s0: Stage, s1: Stage, s3: Stage)
    requires s3.code == 0 || s3.code == 1
    ensures Pipeline([s0, s1, Stage(0, []), s3]) ==
              if s0.code == 1 then s0
              else if s1.code == 1 then Stage(1, s0.events + s1.events)
              else Stage(s3.code, s0.events + s1.events + s3.events)
  {
    assert [s3][1..] == [];
    assert Pipeline([s3]) == Stage(s3.code, s3.events + []);
    assert s3.events + [] == s3.events;
    assert [Stage(0, []), s3][1..] == [s3];
    assert Pipeline([Stage(0, []), s3]) == Stage(s3.code, [] + s3.events);
    assert [] + s3.events == s3.events;
    assert [s1, Stage(0, []), s3][1..] == [Stage(0, []), s3];
    assert [s0, s1, Stage(0, []), s3][1..] == [s1, Stage(0, []), s3];
  }

  /** Each stage returns 0 or 1; the seed image stage runs no ZFS or
      virt-install command and succeeds exactly when the directory and the
      image are made. */
  lemma IsoStageFacts(d: Descriptor, mkdirOk: bool, run: Runner)
    requires Ready(d)
    ensures var s := IsoStage(d, mkdirOk, run);
            var cdrom := Lookup(d.vm, "cdrom").value.s;
            && (s.code == 0 || s.code == 1)
            && (s.code == 0 <==> mkdirOk && run(IsoArgs(cdrom, Dirname(cdrom) + "/")).Succeeded?)
            && s.events[0] == MakeDir(Dirname(cdrom) + "/")
            && forall e | e in s.events && e.Exec? :: e.argv[0] == "genisoimage"
  {
  }

  /** The clone stage starts with the clone command, succeeds exactly when
      it does, and otherwise ends with the attempt to destroy the target. */
  lemma CloneStageFacts(d: Descriptor, run: Runner)
    requires Ready(d)
    ensures var s := CloneStage(d, run);
            var clone := CloneArgs(d.zvolVm, d.zvolBase, d.zvol);
            && (s.code == 0 || s.code == 1)
            && (s.code == 0 <==> run(clone).Succeeded?)
            && s.events[0] == Exec(clone)
            && (s.code == 1 <==> s.events[|s.events| - 1] == Rollback(d))
            && forall e | e in s.events :: e.Exec? && e.argv[0] == "zfs"
  {
    var clone := CloneArgs(d.zvolVm, d.zvolBase, d.zvol);
    assert clone[..2] == ["zfs", "clone"] && clone[1] == "clone";
    assert Exec(clone) != Rollback(d) by {
      assert Rollback(d).argv[1] == "destroy";
    }
  }

  /** `qvm vm` succeeds exactly when the directory, the seed image, the clone,
      the validation and the install all succeed. */
  lemma VmRunSucceeds(d: Descriptor, mkdirOk: bool, run: Runner)
    requires Ready(d)
    ensures var cdrom := Lookup(d.vm, "cdrom").value.s;
            VmRun(d, mkdirOk, run).code == 0 <==>
              && mkdirOk
              && run(IsoArgs(cdrom, Dirname(cdrom) + "/")).Succeeded?
              && run(CloneArgs(d.zvolVm, d.zvolBase, d.zvol)).Succeeded?
              && run(InstallCmd(d.vm) + ["--dry-run"]).Succeeded?
              && run(InstallCmd(d.vm)).Succeeded?
  {
    IsoStageFacts(d, mkdirOk, run);
    CloneStageFacts(d, run);
    CreateGate(d, InstallCmd(d.vm), run);
  }

  /** No ZFS or virt-install command runs unless the seed image was built;
      the install runs only after the clone and its validation succeeded; a
      failure once the clone was attempted ends with the attempt to destroy
      the target. */
  lemma VmRunGating(d: Descriptor, mkdirOk: bool, run: Runner)
    requires Ready(d)
    ensures var s := VmRun(d, mkdirOk, run);
            var clone := CloneArgs(d.zvolVm, d.zvolBase, d.zvol);
            && (IsoStage(d, mkdirOk, run).code == 1 ==> s == IsoStage(d, mkdirOk, run))
            && (Exec(InstallCmd(d.vm)) in s.events ==>
                  Exec(clone) in s.events && run(clone).Succeeded? && run(InstallCmd(d.vm) + ["--dry-run"]).Succeeded?)
            && (s.code == 1 && Exec(clone) in s.events ==> s.events[|s.events| - 1] == Rollback(d))
  {
    var iso, cl := IsoStage(d, mkdirOk, run), CloneStage(d, run);
    var cmd := InstallCmd(d.vm);
    var cr := CreateStage(d, cmd, run);
    var clone := CloneArgs(d.zvolVm, d.zvolBase, d.zvol);
    IsoStageFacts(d, mkdirOk, run);
    CloneStageFacts(d, run);
    CreateGate(d, cmd, run);
    assert Exec(cmd) !in iso.events && Exec(clone) !in iso.events;
    assert Exec(cmd) !in cl.events;
    assert Exec(clone) in cl.events;
  }

  /** The VM qvm is creating: the four dictionaries of the qvm file, the
      base snapshot, the volume to create and, once built, the virt-install
      command. */
  class VirtualMachine {
    var userdata: Dict
    var metadata: Dict
    var vm: Dict
    var zvol: Dict
    var zvolBase: string
    var zvolVm: string
    var cmd: seq<string>

    /** The fields `__init__` sets. */
    function Fields(): Descriptor
      reads this
    {
      Descriptor(userdata, metadata, vm, zvol, zvolBase, zvolVm)
    }

    ghost predicate Valid()
      reads this
    {
      Ready(Fields())
    }

    /** `VirtualMachine(qvm_dict)` with `randrange(999999)` returning
        `random`. */
    constructor (qvmDict: Bundle, random: nat)
      requires Provisionable(qvmDict) && random < RandomBound
      ensures Fields() == Derive(qvmDict, random) && Valid()
      ensures cmd == []
    {
      var d := Derive(qvmDict, random);
      DeriveReady(qvmDict, random);
      userdata := d.userdata;
      metadata := d.metadata;
      vm := d.vm;
      zvol := d.zvol;
      zvolBase := d.zvolBase;
      zvolVm := d.zvolVm;
      cmd := [];
    }

    /** `create_cloudinit_iso()`, the directory's creation succeeding
        exactly when `mkdirOk`. */
    method CreateCloudinitIso(mkdirOk: bool, run: Runner) returns (s: Stage)
      requires Valid()
      ensures s == IsoStage(Fields(), mkdirOk, run)
    {
      var cdrom := Lookup(vm, "cdrom").value.s;
      var cloudinitDir := Dirname(cdrom) + "/";
      var events := [MakeDir(cloudinitDir)];
      if !mkdirOk {
        return Stage(1, events);
      }
      events := events + [WriteYaml(cloudinitDir + "user-data", userdata)];
      events := events + [WriteYaml(cloudinitDir + "meta-data", metadata)];
      var isoCreationCmd := ["genisoimage", "-output", cdrom, "-volid", "cidata", "-joliet", "-rock",
                             cloudinitDir + "user-data", cloudinitDir + "meta-data"];
      events := events + [Exec(isoCreationCmd)];
      if run(isoCreationCmd).Failed? {
        return Stage(1, events);
      }
      return Stage(0, events);
    }

    /** `clone_base_zvol()` */
    method CloneBaseZvol(run: Runner) returns (s: Stage)
      requires Valid()
      ensures s == CloneStage(Fields(), run)
    {
      var call := Clone(zvolVm, zvolBase, zvol, run);
      if call.error.Some? {
        return Stage(1, [Exec(call.cmd), Exec(DestroyArgs(zvolVm))]);
      }
      return Stage(0, [Exec(call.cmd)]);
    }

    /** `build_cmd()`: one pass over the options, and for a nested option one
        pass over its children growing the option's text. */
    method BuildCmd() returns (code: int)
      requires Valid()
      modifies this`cmd
      ensures cmd == InstallCmd(vm) && code == 0
    {
      var options := vm;
      var args := ["virt-install", "--noautoconsole"];
      var i := 0;
      while i < |options|
        invariant 0 <= i <= |options| && NestedFlat(options[..i]) && args == InstallCmd(options[..i])
      {
        InstallCmdStep(options, i);
        ghost var before := args;
        var (key, value) := options[i];
        if value.VMap? {
          args := args + ["--" + key];
          var cmdtmp := ChildOptionText(value.entries);
          args := args + [cmdtmp];
          AppendTwice(before, "--" + key, cmdtmp);
        } else if value.VBool? {
          args := args + ["--" + key];
        } else {
          args := args + ["--" + key, Str(value)];
        }
        assert args == before + EntryArgs(key, value);
        i := i + 1;
      }
      assert options[..i] == options;
      cmd := args;
      return 0;
    }

    /** The inner loop of `build_cmd()`: `k=v,` appended for each child of a
        nested option. */
    static method ChildOptionText(children: Dict) returns (cmdtmp: string)
      requires Flat(children)
      ensures cmdtmp == ChildText(children)
    {
      cmdtmp := "";
      var j := 0;
      while j < |children|
        invariant 0 <= j <= |children| && Flat(children[..j]) && cmdtmp == ChildText(children[..j])
      {
        ChildTextStep(children, j);
        var (childkey, childvalue) := children[j];
        cmdtmp := cmdtmp + childkey + "=" + Str(childvalue) + ",";
        j := j + 1;
      }
      assert children[..j] == children;
    }

    /** `create()` */
    method Create(run: Runner) returns (s: Stage)
      requires Valid()
      ensures s == CreateStage(Fields(), cmd, run)
    {
      var dryRun := cmd + ["--dry-run"];
      if run(dryRun).Failed? {
        return Stage(1, [Exec(dryRun), Exec(DestroyArgs(zvolVm))]);
      }
      if run(cmd).Failed? {
        return Stage(1, [Exec(dryRun), Exec(cmd), Exec(DestroyArgs(zvolVm))]);
      }
      return Stage(0, [Exec(dryRun), Exec(cmd)]);
    }
  }
}
