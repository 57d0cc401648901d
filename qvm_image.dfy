/** qvm.py `import_cloud_img`: making a zvol the size of a cloud image,
    copying the image onto its block device and taking the `@base` snapshot
    that later VMs are cloned from.

    What the file system answers (existence, size, whether a file opens,
    whether the device node is a link) and whether the snapshot succeeds are
    inputs of the model; the `zfs` commands go through the Runner. */
module QvmImage {
  import opened Wrappers
  import opened Strings
  import opened YamlValues
  import opened Host
  import opened ZfsExceptions
  import opened ZfsCli
  import QvmMachine

  /** How `main` ends: the value it returns, or a ZFS exception that no
      handler catches and that therefore leaves the program. */
  datatype Exit = Returned(code: int) | Uncaught(error: ZfsError)

  /** What the host answers during one `import_cloud_img` call:
      `os.path.exists` of the image, its `os.path.getsize` (None where that
      raises OSError), whether `open` of the image succeeds, whether the
      zvol's device node is a symbolic link, whether it opens for writing,
      and whether `lzc_snapshot` succeeds. */
  datatype ImageHost = ImageHost(
    imageExists: bool,
    imageSize: Option<nat>,
    imageReadable: bool,
    deviceIsLink: bool,
    deviceWritable: bool,
    snapshotOk: bool)

  /** How a run ended and the effects it asked for, in order. */
  datatype Trace = Trace(exit: Exit, events: seq<Event>)

  const MiBBytes: nat := 1048576

  /** `int(ceil(float(n) / (1024**2)))` on exact integers: the fewest whole
      mebibytes that hold `n` bytes. */
  function MiB(n: nat): (m: nat)
    ensures n <= m * MiBBytes
    ensures m > 0 ==> (m - 1) * MiBBytes < n
  {
    (n + MiBBytes - 1) / MiBBytes
  }

  /** The `volsize` property: the size in MiB and an `M`. */
  function VolSize(n: nat): string {
    NatToString(MiB(n)) + "M"
  }

  /** The properties used when the caller gives none: sparse (no
      refreservation) with 16K blocks. */
  const DefaultProps: Dict := [("volblocksize", VStr("16K")), ("refreservation", VStr("none"))]

  /** The properties `create` receives: the caller's, or the defaults, with
      `volsize` set from the image size. */
  function ImageProps(props: Option<Dict>, size: nat): Dict {
    Put(if props.None? then DefaultProps else props.value, "volsize", VStr(VolSize(size)))
  }

  /** The `zfs create` exceptions `import_cloud_img` handles by returning 1;
      any other one leaves the function. */
  predicate Caught(e: ZfsError) {
    || e.InitializationFailed?
    || (e.Mapped? && e.kind in {FilesystemExists, ParentNotFound, PoolNotFound, PropertyInvalid, NameInvalid, NameTooLong})
  }

  /** The attempt to destroy the new zvol; its own failure only prints. */
  function Discard(name: string): Event {
    Exec(DestroyArgs(name))
  }

  /** `import_cloud_img(name, img_source, props)`: the checks in the order the
      function makes them, each failure returning 1, then `zfs create`. */
  function ImageSpec(name: string, imgSource: string, props: Option<Dict>, host: ImageHost, run: Runner): Trace
    requires props.Some? ==> Flat(props.value)
  {
    if !host.imageExists || host.imageSize.None? || !host.imageReadable then Trace(Returned(1), [])
    else
      var cmd := CreateArgs(name, ImageFlat(props, host.imageSize.value));
      AfterCreate(name, imgSource, host, cmd, RunCmd(cmd, run))
  }

  /** What follows `zfs create` (`cmd`, ending in `error`): a handled
      exception returns 1 and an unhandled one leaves; otherwise the image is
      copied onto the device and snapshotted, and every failure from here on
      also tries to destroy the zvol. */
  function AfterCreate(name: string, imgSource: string, host: ImageHost, cmd: seq<string>, error: Option<ZfsError>): Trace {
    if error.Some? then
      Trace(if Caught(error.value) then Returned(1) else Uncaught(error.value), [Exec(cmd)])
    else if !host.deviceIsLink || !host.deviceWritable then
      Trace(Returned(1), [Exec(cmd), Discard(name)])
    else
      var copied := [Exec(cmd), CopyImage(imgSource, QvmMachine.DevicePath(name)), Snapshot(name + "@base")];
      if host.snapshotOk then Trace(Returned(0), copied) else Trace(Returned(1), copied + [Discard(name)])
  }

  /** ImageProps, with the flatness `create` needs. */
  function ImageFlat(props: Option<Dict>, size: nat): (p: Dict)
    requires props.Some? ==> Flat(props.value)
    ensures p == ImageProps(props, size) && Flat(p) && SizeIsText(p)
  {
    var base := if props.None? then DefaultProps else props.value;
    QvmMachine.PutFlat(base, "volsize", VStr(VolSize(size)));
    var p := Put(base, "volsize", VStr(VolSize(size)));
    forall i | 0 <= i < |p| && p[i].0 == "volsize" ensures p[i].1.VStr? {
      QvmMachine.PutPairs(base, "volsize", VStr(VolSize(size)), i);
    }
    p
  }

  /** `import_cloud_img`, step by step. */
  method ImportCloudImg(name: string, imgSource: string, props: Option<Dict>, host: ImageHost, run: Runner)
    returns (r: Trace)
    requires props.Some? ==> Flat(props.value)
    ensures r == ImageSpec(name, imgSource, props, host, run)
  {
    if !host.imageExists {
      return Trace(Returned(1), []);
    }
    var p := if props.None? then DefaultProps else props.value;
    if host.imageSize.None? {
      return Trace(Returned(1), []);
    }
    var imgSize := host.imageSize.value;
    p := Put(p, "volsize", VStr(VolSize(imgSize)));
    assert p == ImageFlat(props, imgSize);
    if !host.imageReadable {
      return Trace(Returned(1), []);
    }
    var call := Create(name, "zvol", Some(p), run);
    r := FinishImport(name, imgSource, host, call.cmd, call.error);
  }

  /** The rest of `import_cloud_img` once `zfs create` ran `cmd` and ended in
      `error`: the handlers, the device checks, the copy and the snapshot. */
  method FinishImport(name: string, imgSource: string, host: ImageHost, cmd: seq<string>, error: Option<ZfsError>)
    returns (r: Trace)
    ensures r == AfterCreate(name, imgSource, host, cmd, error)
  {
    var events := [Exec(cmd)];
    if error.Some? {
      if Caught(error.value) {
        return Trace(Returned(1), events);
      }
      return Trace(Uncaught(error.value), events);
    }
    var zvolDev := QvmMachine.DevicePath(name);
    if !host.deviceIsLink || !host.deviceWritable {
      return Trace(Returned(1), events + [Discard(name)]);
    }
    events := events + [CopyImage(imgSource, zvolDev)];
    events := events + [Snapshot(name + "@base")];
    if !host.snapshotOk {
      return Trace(Returned(1), events + [Discard(name)]);
    }
    return Trace(Returned(0), events);
  }

  /** `volsize` is the decimal size in whole MiB, rounded up, and an `M`. */
  lemma VolSizeValue(n: nat)
    ensures var v := VolSize(n);
            && |v| >= 2 && v[|v| - 1] == 'M'
            && (forall i | 0 <= i < |v| - 1 :: '0' <= v[i] <= '9')
            && DigitsValue(v[..|v| - 1]) == MiB(n)
            && n <= MiB(n) * MiBBytes
            && (MiB(n) > 0 ==> (MiB(n) - 1) * MiBBytes < n)
  {
    var v := VolSize(n);
    assert v[..|v| - 1] == NatToString(MiB(n));
    NatToStringValue(MiB(n));
  }

  /** One byte and one MiB both take `1M`; one byte more takes `2M`; an
      empty image gives `0M`. */
  lemma VolSizeExamples()
    ensures VolSize(1) == "1M" && VolSize(MiBBytes) == "1M" && VolSize(MiBBytes + 1) == "2M"
    ensures VolSize(0) == "0M"
  {
    assert MiB(1) == 1 && MiB(MiBBytes) == 1 && MiB(MiBBytes + 1) == 2 && MiB(0) == 0;
  }

  /** Without caller properties, `create` receives exactly the two defaults
      and `volsize`. */
  lemma DefaultImageProps(size: nat)
    ensures var p := ImageProps(None, size);
            && |p| == 3
            && Lookup(p, "volblocksize") == Some(VStr("16K"))
            && Lookup(p, "refreservation") == Some(VStr("none"))
            && Lookup(p, "volsize") == Some(VStr(VolSize(size)))
  {
    assert !Has(DefaultProps, "volsize") by {
      assert DefaultProps[0].0 != "volsize" && DefaultProps[1].0 != "volsize";
    }
    assert Lookup(DefaultProps, "volblocksize") == Some(VStr("16K"));
    assert Lookup(DefaultProps, "refreservation") == Some(VStr("none"));
  }

  /** Caller properties keep their values, except that `volsize` is
      replaced by the image's size. */
  lemma CallerImageProps(props: Dict, size: nat)
    ensures var p := ImageProps(Some(props), size);
            && Lookup(p, "volsize") == Some(VStr(VolSize(size)))
            && forall k | k != "volsize" :: Lookup(p, k) == Lookup(props, k)
  {
  }

  /** The `zfs create` command of an import carries `-V` and the image's
      size in MiB as one of its property pairs, and names the zvol last. */
  lemma ImageCreateCmd(name: string, props: Option<Dict>, size: nat) returns (k: nat)
    requires props.Some? ==> Flat(props.value)
    ensures var cmd := CreateArgs(name, ImageFlat(props, size));
            && k + 1 < |cmd| && cmd[k] == "-V" && cmd[k + 1] == VolSize(size)
            && cmd[|cmd| - 1] == name
  {
    var p := ImageFlat(props, size);
    var i :| 0 <= i < |p| && p[i] == ("volsize", VStr(VolSize(size)));
    CreateArgsLayout(name, p, i);
    k := 2 + 2 * i;
  }

  /** After `zfs create`: its command comes first; the copy needs a
      successful create and a device that is a link and opens; the snapshot
      comes after the copy; an exception escapes exactly when create raised
      one that is not handled; a failure once the zvol exists ends with the
      attempt to destroy it; and the result is 0 exactly when every step
      succeeds. */
  lemma AfterCreateFacts(name: string, imgSource: string, host: ImageHost, cmd: seq<string>, error: Option<ZfsError>)
    ensures var r := AfterCreate(name, imgSource, host, cmd, error);
            && |r.events| > 0 && r.events[0] == Exec(cmd)
            && (CopyImage(imgSource, "/dev/zvol/" + name) in r.events ==>
                  error.None? && host.deviceIsLink && host.deviceWritable)
            && (Snapshot(name + "@base") in r.events ==>
                  |r.events| >= 3 && r.events[1] == CopyImage(imgSource, "/dev/zvol/" + name))
            && (r.exit.Uncaught? <==> error.Some? && !Caught(error.value))
            && (r.exit.Uncaught? ==> r.exit.error == error.value)
            && (r.exit.Returned? ==> r.exit.code == 0 || r.exit.code == 1)
            && (r.exit == Returned(1) && error.None? ==> r.events[|r.events| - 1] == Discard(name))
            && (r.exit == Returned(0) <==> error.None? && host.deviceIsLink && host.deviceWritable && host.snapshotOk)
  {
  }

  /** Nothing is created unless the image exists, its size is known and it
      opens; the copy happens only onto a device that is a link and opens,
      after `zfs create` succeeded; the snapshot only after the copy; an
      exception escapes exactly when `create` raised one that is not
      handled, and it names the zvol; a failure once the zvol exists ends
      with the attempt to destroy it; and the import returns 0 exactly when
      every step succeeds. */
  lemma ImageGating(name: string, imgSource: string, props: Option<Dict>, host: ImageHost, run: Runner)
    requires props.Some? ==> Flat(props.value)
    ensures var r := ImageSpec(name, imgSource, props, host, run);
            var ready := host.imageExists && host.imageSize.Some? && host.imageReadable;
            && (r.events == [] <==> !ready)
            && (ready ==> r.events[0] == Exec(CreateArgs(name, ImageProps(props, host.imageSize.value))))
            && (CopyImage(imgSource, "/dev/zvol/" + name) in r.events ==>
                  ready && run(r.events[0].argv).Succeeded? && host.deviceIsLink && host.deviceWritable)
            && (Snapshot(name + "@base") in r.events ==>
                  |r.events| >= 3 && r.events[1] == CopyImage(imgSource, "/dev/zvol/" + name))
            && (r.exit.Uncaught? <==>
                  ready && RunCmd(r.events[0].argv, run).Some? && !Caught(RunCmd(r.events[0].argv, run).value))
            && (r.exit.Uncaught? ==> r.exit.error.name == name)
            && (r.exit.Returned? ==> r.exit.code == 0 || r.exit.code == 1)
            && (r.exit == Returned(1) && ready && run(r.events[0].argv).Succeeded? ==>
                  r.events[|r.events| - 1] == Exec(["zfs", "destroy", "-r", name]))
            && (r.exit == Returned(0) <==>
                  ready && run(r.events[0].argv).Succeeded? && host.deviceIsLink && host.deviceWritable && host.snapshotOk)
  {
    if host.imageExists && host.imageSize.Some? && host.imageReadable {
      var cmd := CreateArgs(name, ImageFlat(props, host.imageSize.value));
      AfterCreateFacts(name, imgSource, host, cmd, RunCmd(cmd, run));
    }
  }
}
