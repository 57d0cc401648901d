/** zfs_cli/_zfs_cli.py: running the `zfs` command, turning its error output
    into a libzfs_core exception, and building the `create`, `clone` and
    `destroy` argument lists. */
module ZfsCli {
  import opened Wrappers
  import opened Strings
  import opened YamlValues
  import opened ZfsExceptions
  import opened Host

  /** The one output line that means the utilities were not run as root. */
  const PermissionDenied := "Permission denied the ZFS utilities must be run as root.\n"

  /** `errno.EPERM` on Linux. */
  const EPERM := 1

  /** An exception raised by `raise_exception`. */
  datatype ZfsError =
    | InitializationFailed(errno: int)
    | GenericError(errno: int, name: string, output: string)
    | Mapped(kind: ErrorName, name: string)

  /** `output.rpartition(':')[2].strip()`: the trimmed text after the last
      colon, or the whole trimmed output when there is none. */
  function Trail(output: string): string {
    Strip(RPartition(output, ':').2)
  }

  /** The search loop of `exception_mapper` over a table in iteration order:
      the value of the first entry whose key occurs in `trail`, otherwise the
      generic name. */
  function FirstMatch(table: seq<(string, ErrorName)>, trail: string): (r: ErrorName)
    ensures (forall i | 0 <= i < |table| :: !Contains(trail, table[i].0)) ==> r == ZFSGenericError
    ensures forall i | 0 <= i < |table| && Contains(trail, table[i].0) ::
              (forall j | 0 <= j < i :: !Contains(trail, table[j].0)) ==> r == table[i].1
    ensures r == ZFSGenericError || exists i | 0 <= i < |table| :: Contains(trail, table[i].0) && table[i].1 == r
  {
    if table == [] then ZFSGenericError
    else if Contains(trail, table[0].0) then table[0].1
    else
      var r := FirstMatch(table[1..], trail);
      assert forall i | 1 <= i < |table| :: table[i] == table[1..][i - 1];
      r
  }

  /** `exception_mapper(output)`: a table name exactly when some key occurs
      in the trailing text, and then the name of such a key. */
  function ExceptionMapper(output: string): (r: ErrorName)
    ensures r != ZFSGenericError <==> exists i | 0 <= i < |Mappings| :: Contains(Trail(output), Mappings[i].0)
    ensures r != ZFSGenericError ==>
              exists i | 0 <= i < |Mappings| :: Contains(Trail(output), Mappings[i].0) && Mappings[i].1 == r
  {
    var trail := Trail(output);
    MappingsNeverGeneric();
    NamedMatch(Mappings, trail);
    FirstMatch(Mappings, trail)
  }

  /** Over a table with no generic value, the search finds a name exactly when
      some key occurs. */
  lemma NamedMatch(table: seq<(string, ErrorName)>, trail: string)
    requires forall i | 0 <= i < |table| :: table[i].1 != ZFSGenericError
    ensures FirstMatch(table, trail) != ZFSGenericError <==> exists i | 0 <= i < |table| :: Contains(trail, table[i].0)
  {
    if exists i | 0 <= i < |table| :: Contains(trail, table[i].0) {
      var i :| 0 <= i < |table| && Contains(trail, table[i].0);
      var k := FirstIndex(table, trail, i);
    }
  }

  /** Only the text after the last colon is looked at: whatever precedes it
      does not change the classification, and a line without a colon is
      classified on the whole (trimmed) line. */
  lemma MapperIgnoresPrefix(prefix: string, tail: string)
    requires ':' !in tail
    ensures Trail(tail) == Strip(tail)
    ensures ExceptionMapper(prefix + ":" + tail) == ExceptionMapper(tail)
  {
    RPartitionAt(prefix, ':', tail);
  }

  /** Two iteration orders of the same entries agree whenever the entries
      that match the text all carry the same name. */
  lemma FirstMatchOrderFree(t1: seq<(string, ErrorName)>, t2: seq<(string, ErrorName)>, trail: string)
    requires forall e :: e in t1 <==> e in t2
    requires forall i, j | 0 <= i < |t1| && 0 <= j < |t1| ::
               Contains(trail, t1[i].0) && Contains(trail, t1[j].0) ==> t1[i].1 == t1[j].1
    ensures FirstMatch(t1, trail) == FirstMatch(t2, trail)
  {
    var r1, r2 := FirstMatch(t1, trail), FirstMatch(t2, trail);
    if exists i | 0 <= i < |t1| :: Contains(trail, t1[i].0) {
      var i :| 0 <= i < |t1| && Contains(trail, t1[i].0);
      assert t1[i] in t2;
      var i2 :| 0 <= i2 < |t2| && t2[i2] == t1[i];
      if r1 == ZFSGenericError {
        var k := FirstIndex(t1, trail, i);
        assert r1 == t1[k].1;
      }
      if r2 == ZFSGenericError {
        var k := FirstIndex(t2, trail, i2);
        assert r2 == t2[k].1;
        assert t2[k] in t1;
      } else {
        var k :| 0 <= k < |t2| && Contains(trail, t2[k].0) && t2[k].1 == r2;
        assert t2[k] in t1;
      }
      if r1 != ZFSGenericError {
        var k :| 0 <= k < |t1| && Contains(trail, t1[k].0) && t1[k].1 == r1;
      }
    } else {
      forall i | 0 <= i < |t2| ensures !Contains(trail, t2[i].0) {
        assert t2[i] in t1;
      }
    }
  }

  /** The first matching entry at or before a matching index `i`. */
  lemma FirstIndex(t: seq<(string, ErrorName)>, trail: string, i: nat) returns (k: nat)
    requires i < |t| && Contains(trail, t[i].0)
    ensures k <= i && Contains(trail, t[k].0)
    ensures forall j | 0 <= j < k :: !Contains(trail, t[j].0)
  {
    k := i;
    while exists j | 0 <= j < k :: Contains(trail, t[j].0)
      invariant k <= i && Contains(trail, t[k].0)
      decreases k
    {
      var j :| 0 <= j < k && Contains(trail, t[j].0);
      k := j;
    }
  }

  /** A trailing text that contains exactly one key of the table is
      classified as that key's exception, in whatever order the dict
      iterates. */
  lemma OneKeyAnyOrder(order: seq<(string, ErrorName)>, trail: string, i: nat)
    requires multiset(order) == multiset(Mappings)
    requires i < |Mappings| && Contains(trail, Mappings[i].0)
    requires forall j | 0 <= j < |Mappings| && j != i :: !Contains(trail, Mappings[j].0)
    ensures FirstMatch(order, trail) == Mappings[i].1
  {
    SameEntries(order, Mappings);
    OneKeyFirstMatch(Mappings, order, trail, i);
  }

  /** Over any table, a text in which only entry `i`'s key occurs is
      classified as entry `i`'s value by every order of the entries. */
  lemma OneKeyFirstMatch(t: seq<(string, ErrorName)>, order: seq<(string, ErrorName)>, trail: string, i: nat)
    requires forall e :: e in order <==> e in t
    requires i < |t| && Contains(trail, t[i].0)
    requires forall j | 0 <= j < |t| && j != i :: !Contains(trail, t[j].0)
    ensures FirstMatch(order, trail) == t[i].1
  {
    FirstMatchOrderFree(t, order, trail);
    assert forall j | 0 <= j < i :: !Contains(trail, t[j].0);
  }

  /** An error line whose trailing text is exactly one of the keys is
      classified as that key's exception whatever the iteration order, since
      no key occurs inside another. */
  lemma KeyLineAnyOrder(order: seq<(string, ErrorName)>, prefix: string, i: nat)
    requires multiset(order) == multiset(Mappings)
    requires i < |Mappings|
    ensures Trail(prefix + ": " + Mappings[i].0) == Mappings[i].0
    ensures FirstMatch(order, Trail(prefix + ": " + Mappings[i].0)) == Mappings[i].1
  {
    var key := Mappings[i].0;
    assert PlainKey(key) by {
      MappingsKeysPlain();
    }
    TrailAfterColon(prefix, key);
    assert OccursAt(key, key, 0);
    assert forall j | 0 <= j < |Mappings| && j != i :: !Contains(key, Mappings[j].0) by {
      MappingsKeysIndependent();
    }
    OneKeyAnyOrder(order, key, i);
  }

  /** Sequences with the same multiset hold the same entries. */
  lemma SameEntries(a: seq<(string, ErrorName)>, b: seq<(string, ErrorName)>)
    requires multiset(a) == multiset(b)
    ensures forall e :: e in a <==> e in b
  {
    forall e ensures e in a <==> e in b {
      assert e in a <==> e in multiset(a);
      assert e in b <==> e in multiset(b);
    }
  }

  /** The trailing text of `prefix: text` is `text` when `text` has no colon
      and no whitespace at its ends. */
  lemma TrailAfterColon(prefix: string, text: string)
    requires PlainKey(text)
    ensures Trail(prefix + ": " + text) == text
  {
    var spaced := " " + text;
    assert ':' !in spaced;
    assert prefix + ": " + text == prefix + [':'] + spaced;
    RPartitionAt(prefix, ':', spaced);
    assert spaced[1..] == text;
    assert TrimLeft(spaced) == TrimLeft(text) == text;
    assert TrimRight(text) == text;
  }

  /** `raise_exception(output, name)`: the exact permission-denied line gives
      InitializationFailed(EPERM) without consulting the table; any other
      output gives the generic error carrying the status, the name and the
      output when the table finds nothing, and the table's exception for the
      name otherwise. */
  function RaiseException(output: string, name: string): (e: ZfsError)
    ensures e.InitializationFailed? <==> output == PermissionDenied
    ensures e.InitializationFailed? ==> e.errno == EPERM
    ensures e.GenericError? <==> output != PermissionDenied && ExceptionMapper(output) == ZFSGenericError
    ensures e.GenericError? ==> e.errno == 1 && e.name == name && e.output == output
    ensures e.Mapped? ==> e.kind == ExceptionMapper(output) && e.kind != ZFSGenericError && e.name == name
  {
    if output == PermissionDenied then InitializationFailed(EPERM)
    else
      var mapped := ExceptionMapper(output);
      if mapped == ZFSGenericError then GenericError(1, name, output)
      else Mapped(mapped, name)
  }

  /** `run_cmd(cmd)`: nothing on exit status 0; otherwise the exception for
      the output, naming the command's last argument. */
  function RunCmd(cmd: seq<string>, run: Runner): (r: Option<ZfsError>)
    requires |cmd| > 0
    ensures r.None? <==> run(cmd).Succeeded?
    ensures r.Some? ==> r.value == RaiseException(run(cmd).output, cmd[|cmd| - 1])
    ensures r.Some? && !r.value.InitializationFailed? ==> r.value.name == cmd[|cmd| - 1]
  {
    match run(cmd)
    case Succeeded => None
    case Failed(output) => Some(RaiseException(output, cmd[|cmd| - 1]))
  }

  /** `-o key=value` */
  function OptionFlag(key: string, value: Value): seq<string>
    requires !value.VMap?
  {
    ["-o", key + "=" + Str(value)]
  }

  /** The arguments `create` adds for one property. */
  function CreateFlag(key: string, value: Value): (f: seq<string>)
    requires !value.VMap?
  {
    if key == "volsize" then ["-V", Str(value)] else OptionFlag(key, value)
  }

  /** The property arguments of `create`: two per property, in iteration
      order. */
  function CreateFlags(props: Dict): (f: seq<string>)
    requires Flat(props)
    ensures |f| == 2 * |props|
  {
    if props == [] then []
    else
      var init := props[..|props| - 1];
      FlatSlice(props, 0, |props| - 1);
      CreateFlags(init) + CreateFlag(props[|props| - 1].0, props[|props| - 1].1)
  }

  /** The property arguments of `clone`: `-o key=value` per property. */
  function CloneFlags(props: Dict): (f: seq<string>)
    requires Flat(props)
    ensures |f| == 2 * |props|
  {
    if props == [] then []
    else
      var init := props[..|props| - 1];
      FlatSlice(props, 0, |props| - 1);
      CloneFlags(init) + OptionFlag(props[|props| - 1].0, props[|props| - 1].1)
  }

  /** Property `i` gives arguments `2 * i` and `2 * i + 1` of `create`'s
      property arguments. */
  lemma {:induction false} CreateFlagsAt(props: Dict, i: nat)
    requires Flat(props) && i < |props|
    ensures CreateFlags(props)[2 * i] == CreateFlag(props[i].0, props[i].1)[0]
    ensures CreateFlags(props)[2 * i + 1] == CreateFlag(props[i].0, props[i].1)[1]
  {
    var n := |props| - 1;
    var init := props[..n];
    FlatSlice(props, 0, n);
    var front, last := CreateFlags(init), CreateFlag(props[n].0, props[n].1);
    assert |last| == 2;
    assert CreateFlags(props) == front + last;
    if i < n {
      CreateFlagsAt(init, i);
      assert init[i] == props[i];
    }
  }

  /** Property `i` gives arguments `2 * i` and `2 * i + 1` of `clone`'s
      property arguments. */
  lemma {:induction false} CloneFlagsAt(props: Dict, i: nat)
    requires Flat(props) && i < |props|
    ensures CloneFlags(props)[2 * i] == OptionFlag(props[i].0, props[i].1)[0]
    ensures CloneFlags(props)[2 * i + 1] == OptionFlag(props[i].0, props[i].1)[1]
  {
    var n := |props| - 1;
    var init := props[..n];
    FlatSlice(props, 0, n);
    var front, last := CloneFlags(init), OptionFlag(props[n].0, props[n].1);
    assert |last| == 2;
    assert CloneFlags(props) == front + last;
    if i < n {
      CloneFlagsAt(init, i);
      assert init[i] == props[i];
    }
  }

  /** One more property extends the arguments by that property's flag. */
  lemma CreateFlagsStep(head: seq<string>, props: Dict, i: nat)
    requires Flat(props) && i < |props|
    ensures Flat(props[..i]) && Flat(props[..i + 1]) && !props[i].1.VMap?
    ensures head + CreateFlags(props[..i + 1]) == head + CreateFlags(props[..i]) + CreateFlag(props[i].0, props[i].1)
  {
    FlatSlice(props, 0, i);
    FlatSlice(props, 0, i + 1);
    assert props[..i + 1][..i] == props[..i];
    assert props[..i + 1][i] == props[i];
    assert props[..i + 1][..i + 1 - 1] == props[..i];
    assert CreateFlags(props[..i + 1]) == CreateFlags(props[..i]) + CreateFlag(props[i].0, props[i].1);
  }

  lemma CloneFlagsStep(head: seq<string>, props: Dict, i: nat)
    requires Flat(props) && i < |props|
    ensures Flat(props[..i]) && Flat(props[..i + 1]) && !props[i].1.VMap?
    ensures head + CloneFlags(props[..i + 1]) == head + CloneFlags(props[..i]) + OptionFlag(props[i].0, props[i].1)
  {
    FlatSlice(props, 0, i);
    FlatSlice(props, 0, i + 1);
    assert props[..i + 1][..i] == props[..i];
    assert props[..i + 1][i] == props[i];
    assert CloneFlags(props[..i + 1]) == CloneFlags(props[..i]) + OptionFlag(props[i].0, props[i].1);
  }

  /** `zfs create [-V size] [-o key=value ...] name` */
  function CreateArgs(name: string, props: Dict): (cmd: seq<string>)
    requires Flat(props)
    ensures |cmd| == 3 + 2 * |props| && cmd[..2] == ["zfs", "create"] && cmd[|cmd| - 1] == name
  {
    ["zfs", "create"] + CreateFlags(props) + [name]
  }

  /** `zfs clone [-o key=value ...] origin name` */
  function CloneArgs(name: string, origin: string, props: Dict): (cmd: seq<string>)
    requires Flat(props)
    ensures |cmd| == 4 + 2 * |props| && cmd[..2] == ["zfs", "clone"]
    ensures cmd[|cmd| - 2..] == [origin, name]
  {
    ["zfs", "clone"] + CloneFlags(props) + [origin, name]
  }

  /** The layout of `zfs create`: property `i` at
      positions `2 + 2 * i` and `3 + 2 * i`, `-V size` for `volsize` and
      `-o key=value` for any other. */
  lemma CreateArgsLayout(name: string, props: Dict, i: nat)
    requires Flat(props) && i < |props|
    ensures var cmd := CreateArgs(name, props);
            var (key, value) := props[i];
            && cmd[2 + 2 * i] == (if key == "volsize" then "-V" else "-o")
            && cmd[3 + 2 * i] == (if key == "volsize" then Str(value) else key + "=" + Str(value))
  {
    CreateFlagsAt(props, i);
  }

  /** The layout of `zfs clone`: origin and name last, and property `i` as
      `-o key=value` at positions `2 + 2 * i` and `3 + 2 * i`. */
  lemma CloneArgsLayout(name: string, origin: string, props: Dict, i: nat)
    requires Flat(props) && i < |props|
    ensures var cmd := CloneArgs(name, origin, props);
            var (key, value) := props[i];
            && cmd[2 + 2 * i] == "-o"
            && cmd[3 + 2 * i] == key + "=" + Str(value)
  {
    CloneFlagsAt(props, i);
  }

  /** `zfs destroy -r name` */
  function DestroyArgs(name: string): (cmd: seq<string>)
    ensures |cmd| == 4 && cmd[|cmd| - 1] == name
  {
    ["zfs", "destroy", "-r", name]
  }

  /** What a builder did: returned 1 without running anything, or ran `cmd`
      and perhaps raised. */
  datatype Call = NotRun | Ran(cmd: seq<string>, error: Option<ZfsError>)

  /** The `-V` argument is handed to the command as it is, so it must already
      be a string. */
  predicate SizeIsText(props: Dict) {
    forall i | 0 <= i < |props| :: props[i].0 == "volsize" ==> props[i].1.VStr?
  }

  /** `create(name, ds_type, props)`. A zvol without properties is refused
      before any command is built; otherwise the command is built property by
      property and run, and a failure names the dataset. */
  method Create(name: string, dsType: string, props: Option<Dict>, run: Runner) returns (r: Call)
    requires props.None? ==> dsType == "zvol"
    requires props.Some? ==> Flat(props.value) && SizeIsText(props.value)
    ensures r.NotRun? <==> props.None?
    ensures r.Ran? ==> r.cmd == CreateArgs(name, props.value) && r.error == RunCmd(r.cmd, run)
    ensures r.Ran? && r.error.Some? && !r.error.value.InitializationFailed? ==> r.error.value.name == name
  {
    if dsType == "zvol" && props.None? {
      return NotRun;
    }
    var cmd := CreateCommand(name, props.value);
    r := Ran(cmd, RunCmd(cmd, run));
  }

  /** The loop of `create` that builds the command: `-V value` for
      `volsize`, `-o key=value` for any other property, the name last. */
  method CreateCommand(name: string, props: Dict) returns (cmd: seq<string>)
    requires Flat(props)
    ensures cmd == CreateArgs(name, props)
  {
    cmd := ["zfs", "create"];
    var i := 0;
    while i < |props|
      invariant 0 <= i <= |props|
      invariant cmd == ["zfs", "create"] + CreateFlags(props[..i])
    {
      CreateFlagsStep(["zfs", "create"], props, i);
      var (key, value) := props[i];
      if key == "volsize" {
        cmd := cmd + ["-V", Str(value)];
      } else {
        cmd := cmd + ["-o", key + "=" + Str(value)];
      }
      i := i + 1;
    }
    assert props[..i] == props;
    cmd := cmd + [name];
  }

  /** `clone(name, origin, props)`: `-o key=value` per property, then the
      origin snapshot and the new dataset; a failure names the dataset. */
  method Clone(name: string, origin: string, props: Dict, run: Runner) returns (r: Call)
    requires Flat(props)
    ensures r.Ran? && r.cmd == CloneArgs(name, origin, props) && r.error == RunCmd(r.cmd, run)
    ensures r.error.Some? && !r.error.value.InitializationFailed? ==> r.error.value.name == name
  {
    var cmd := CloneCommand(name, origin, props);
    r := Ran(cmd, RunCmd(cmd, run));
  }

  /** The loop of `clone` that builds the command: `-o key=value` per
      property, then the origin and the name. */
  method CloneCommand(name: string, origin: string, props: Dict) returns (cmd: seq<string>)
    requires Flat(props)
    ensures cmd == CloneArgs(name, origin, props)
  {
    cmd := ["zfs", "clone"];
    var i := 0;
    while i < |props|
      invariant 0 <= i <= |props|
      invariant cmd == ["zfs", "clone"] + CloneFlags(props[..i])
    {
      CloneFlagsStep(["zfs", "clone"], props, i);
      var (key, value) := props[i];
      cmd := cmd + ["-o", key + "=" + Str(value)];
      i := i + 1;
    }
    assert props[..i] == props;
    cmd := cmd + [origin, name];
  }

  /** `destroy(name)`: runs `zfs destroy -r name`; a failure names the
      dataset. */
  function Destroy(name: string, run: Runner): (r: Option<ZfsError>)
    ensures r.None? <==> run(["zfs", "destroy", "-r", name]).Succeeded?
    ensures r.Some? && !r.value.InitializationFailed? ==> r.value.name == name
  {
    RunCmd(DestroyArgs(name), run)
  }
}
