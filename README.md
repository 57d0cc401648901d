# qvm in Dafny

qvm is a small Python 2 tool that provisions KVM virtual machines on ZFS.
It has two commands:

- `qvm image CLOUD_IMAGE ZVOL` imports a cloud image. It creates a zvol the
  size of the image, copies the image onto the zvol's block device and takes
  a `@base` snapshot.
- `qvm vm QVMFILE` reads a YAML stream of `user-data`, `meta-data` and `vm`
  documents and then runs four stages in order:
  1. it builds a cloud-init seed image;
  2. it clones the base snapshot into a new zvol named after the VM;
  3. it builds a `virt-install` command line from the `vm` document;
  4. it validates that command with `--dry-run` and then runs it.

  The first stage that fails ends the run and returns 1. Once the clone has
  been attempted, every failure also tries to destroy the new zvol.

The `zfs_cli` package drives the `zfs` command-line tool. It runs the
command and maps the text of a failure onto a libzfs_core exception: the
text after the last `:` is trimmed and searched for the substrings of a
fixed table. It also builds the argument lists for `create`, `clone` and
`destroy`.

The model works on values:

- A parsed YAML dictionary is a sequence of (key, value) pairs, taken in
  whatever order Python 2 happens to iterate it. The lemmas about options
  and properties hold for every order. The exception table is the one
  place where order can matter; see "Left out".
- An external command is a `Runner`, a function from argument list to
  `Succeeded` or `Failed(output)`.
- The file system's answers are fields of a host record. These are whether
  a path exists, the image size, whether a file opens, whether the device
  node is a link and whether the snapshot succeeds.
- `os.path.expanduser` is a function of the host record, and so is the
  number `randrange` draws.
- A run is a trace: how it ended, and the effects it asked for, in order.
  The effects are directories made, YAML files written, commands executed,
  the image copy and the snapshot.

Each Python function that works step by step is a Dafny method proved equal
to a specification function. Examples are `ImportYaml`, the `create` and
`clone` builders, `build_cmd` and `import_cloud_img`. The lemmas then state
what the specification function does. `VirtualMachine` is a class whose
fields `__init__` sets and whose `cmd` field `build_cmd` assigns.

Modules (one per file):

- `Wrappers`: the optional value.
- `Strings`: strip, rpartition, substring test, decimal text, dirname.
- `YamlValues`: YAML values as Python dicts.
- `Host`: commands and effects.
- `ZfsExceptions`: the table in `zfs_cli/exceptions.py`.
- `ZfsCli`: `zfs_cli/_zfs_cli.py`.
- `QvmConfig`: `import_yaml`.
- `QvmMachine`: `VirtualMachine` and the `vm` pipeline.
- `QvmImage`: `import_cloud_img`.
- `QvmMain`: `main`.

## Where the code and its documentation differ

The model follows the code in each of these places:

- `build_cmd` emits `--key` for a boolean option whether the value is true
  or false (qvm.py:222-223). `QvmMachine.BoolValueIgnored` proves that
  changing the value leaves the command equal.
- The test `type(value) is IntType or StringType` (qvm.py:225) is always
  true. So every value that is neither a dict nor a boolean becomes
  `--key str(value)`, including floats, lists and null. The model carries
  such a value as `VOther` with its `str()` text.
- `main` returns 0 after `qvm image` whatever `import_cloud_img` returned
  (qvm.py:410-416). Only an exception that `import_cloud_img` does not
  handle changes that. `QvmMain.MainImage` states this.
- `main` applies `os.path.expanduser` to the ZVOL argument, not to the
  CLOUD_IMAGE path (qvm.py:411).
- `clone_base_zvol` catches every exception (qvm.py:194). Any failed
  clone, including one refused because the target already exists, is
  followed by `zfs destroy -r` of the target. `QvmMachine.CloneStageFacts`
  states this.
- `build_cmd` always returns 0, so the check `if vm.build_cmd() == 1`
  (qvm.py:406) never fires.

## Model

| member | source | states |
|---|---|---|
| ZfsExceptions.MappingsNeverGeneric | zfs_cli/exceptions.py:1-10 | no table entry names the generic fallback |
| ZfsExceptions.MappingsValuesDistinct | zfs_cli/exceptions.py:1-10 | the eight keys name eight different exceptions |
| ZfsExceptions.MappingsKeysPlain | zfs_cli/exceptions.py:1-10 | every key is non-empty, has no colon and no surrounding whitespace, so it can survive `rpartition(':')[2].strip()` unchanged |
| ZfsExceptions.MappingsKeysIndependent | zfs_cli/exceptions.py:1-10 | no key occurs inside another, so a text that is exactly one key matches that key only |
| Strings.TrimLeft | zfs_cli/_zfs_cli.py:16 | the result is a suffix of the input, everything dropped is whitespace, and it does not start with whitespace |
| Strings.TrimRight | zfs_cli/_zfs_cli.py:16 | the result is a prefix of the input, everything dropped is whitespace, and it does not end with whitespace |
| Strings.StripIsSlice | zfs_cli/_zfs_cli.py:16 | `strip()` is a slice of the input with only whitespace outside it and no whitespace at either end |
| Strings.RPartition | zfs_cli/_zfs_cli.py:16 | with the separator present: head + separator + tail is the input and the tail has no separator; without it: `("", "", s)` |
| Strings.RPartitionAt | qvm.py:135-138 | splitting `head + sep + tail` where the tail has no `sep` gives back head and tail |
| Strings.NatToString | qvm.py:128 | `str(n)` is non-empty, all decimal digits, and starts with `0` only for zero |
| Strings.NatToStringValue | qvm.py:279 | the digits of `str(n)` read back as `n` |
| Strings.NatToStringInjective | qvm.py:128 | different numbers have different decimal texts |
| Strings.IntToString | qvm.py:218-226 | `str(i)` of a non-negative number is decimal digits reading back as `i`; of a negative one, `-` followed by digits reading back as `-i` |
| Strings.RStripChar | qvm.py:149 | `rstrip(c)` removes exactly the trailing run of `c` |
| Strings.DirnameOf | qvm.py:149 | `os.path.dirname(dir + "/" + file)` is `dir` when `file` has no slash and `dir` does not end in one |
| YamlValues.Lookup | qvm.py:80-85 | `d[k]` is defined exactly when `k in d`, and it is a value paired with `k` in `d` |
| YamlValues.Remove | qvm.py:56 | after `del d[k]`, `k` is gone, every other key keeps its value, and no pair is new |
| YamlValues.Put | qvm.py:128 | after `d[k] = v`, `d[k]` is `v`, every other key keeps its value, and a new key goes last |
| ZfsCli.FirstMatch | zfs_cli/_zfs_cli.py:19-24 | the value of the first entry whose key occurs in the text, or the generic name when none does |
| ZfsCli.ExceptionMapper | zfs_cli/_zfs_cli.py:14-24 | a table name exactly when some key occurs in the trailing text, and then the name of such a key |
| ZfsCli.NamedMatch | zfs_cli/_zfs_cli.py:19-24 | over a table without the generic name, a name is found exactly when some key occurs |
| ZfsCli.MapperIgnoresPrefix | zfs_cli/_zfs_cli.py:16 | text before the last colon never changes the mapped exception |
| ZfsCli.FirstMatchOrderFree | zfs_cli/_zfs_cli.py:19-21 | two iteration orders of the same entries agree when the keys that occur in the text share one value |
| ZfsCli.OneKeyAnyOrder | zfs_cli/_zfs_cli.py:19-21 | a text containing exactly one key maps to that key's exception in every iteration order of the table |
| ZfsCli.KeyLineAnyOrder | zfs_cli/_zfs_cli.py:14-24 | an error line `prefix: key` maps to that key's exception in every iteration order |
| ZfsCli.TrailAfterColon | zfs_cli/_zfs_cli.py:16 | the trailing text of `prefix: text` is `text` when `text` is plain |
| ZfsCli.RaiseException | zfs_cli/_zfs_cli.py:27-38 | the exact permission-denied line gives initialisation failure with EPERM; otherwise the generic error carrying errno 1, the name and the output when nothing maps, else the mapped exception carrying the name |
| ZfsCli.RunCmd | zfs_cli/_zfs_cli.py:41-45 | nothing exactly when the command succeeds; otherwise `raise_exception` of its output named by the command's last argument |
| ZfsCli.CreateFlagsAt | zfs_cli/_zfs_cli.py:60-64 | property `i` gives arguments `2i` and `2i+1` of the property flags |
| ZfsCli.CloneFlagsAt | zfs_cli/_zfs_cli.py:80-81 | property `i` gives `-o` and `key=value` at arguments `2i` and `2i+1` |
| ZfsCli.CreateArgs | zfs_cli/_zfs_cli.py:50-67 | `zfs create`, two arguments per property, the dataset name last |
| ZfsCli.CloneArgs | zfs_cli/_zfs_cli.py:76-84 | `zfs clone`, two arguments per property, and origin and name as the last two arguments |
| ZfsCli.CreateArgsLayout | zfs_cli/_zfs_cli.py:59-67 | property `i` sits at positions `2+2i` and `3+2i` of the create command: `-V` and `str(value)` for `volsize`, `-o` and `key=value` for any other key |
| ZfsCli.CloneArgsLayout | zfs_cli/_zfs_cli.py:79-84 | property `i` sits at positions `2+2i` and `3+2i` as `-o` and `key=value` |
| ZfsCli.DestroyArgs | zfs_cli/_zfs_cli.py:89-90 | four arguments, the dataset name last |
| ZfsCli.Create | zfs_cli/_zfs_cli.py:48-71 | a zvol without properties returns without running anything; otherwise the create command runs and its error, if any, names the dataset |
| ZfsCli.CreateCommand | zfs_cli/_zfs_cli.py:50-67 | the loop builds exactly the create command |
| ZfsCli.Clone | zfs_cli/_zfs_cli.py:74-86 | the clone command runs, and its error, if any, names the new dataset |
| ZfsCli.CloneCommand | zfs_cli/_zfs_cli.py:76-84 | the loop builds exactly the clone command |
| ZfsCli.Destroy | zfs_cli/_zfs_cli.py:89-90 | succeeds exactly when `zfs destroy -r name` does, and an error names the dataset |
| QvmConfig.Latest | qvm.py:47-62 | the kept document of a tag has no `qvm` key |
| QvmConfig.LatestNone | qvm.py:47-69 | no document is kept for a tag exactly when no document carries that tag |
| QvmConfig.LatestIsLastTagged | qvm.py:54-62 | the kept document is the last one with that tag, with `qvm` removed |
| QvmConfig.LatestSkips | qvm.py:47-62 | a document with another tag does not change what is kept |
| QvmConfig.LaterReplaces | qvm.py:54-62 | a later document with the tag replaces any earlier one |
| QvmConfig.ImportYaml | qvm.py:28-101 | the loop and checks compute the import specification: file missing, untagged document, missing document, missing `disk`, `zvol` or `base`, in that order, else the four dictionaries |
| QvmConfig.UntaggedFails | qvm.py:47-53 | any document without a specifier makes the import fail for that reason |
| QvmConfig.UnknownTagIgnored | qvm.py:47-62 | a document with an unknown tag changes nothing in the import |
| QvmConfig.ImportMissingDocument | qvm.py:64-69 | with all documents tagged, the import fails for a missing document exactly when one of the three tags never occurs |
| QvmConfig.ReachedSplit | qvm.py:47-69 | once every document is tagged, the outcome is decided by the kept `user-data`, `meta-data` and `vm` documents alone |
| QvmConfig.SplitReasons | qvm.py:71-89 | `disk`, then `zvol` in `vm['disk']`, then `base` in the zvol is checked; each fails exactly when it is the first one missing, with `in` a key test on a dict and a substring test on a string |
| QvmConfig.ImportMissingKeys | qvm.py:71-89 | with all three documents present, the import fails for `disk`, `zvol` or `base` exactly when that is the first one missing |
| QvmConfig.ImportedShape | qvm.py:91-101 | on success no dictionary keeps `qvm`, `zvol` is moved out of `vm['disk']` and still names its base, and nothing else in `vm` changed |
| QvmMachine.CdromDirectory | qvm.py:145-149 | the seed directory is the directory of the seed image path |
| QvmMachine.SeedDirsDistinct | qvm.py:128 | different random numbers give different seed directories |
| QvmMachine.TargetIsSibling | qvm.py:131-138 | the new zvol is the base image's sibling named after the VM |
| QvmMachine.TargetWithoutParent | qvm.py:131-138 | a base name without `/` gives `/name` |
| QvmMachine.DeriveShape | qvm.py:120-141 | after `__init__`: the snapshot is `base@base`, `base` is gone from the zvol properties, `cdrom` is the seed image, `disk.path` is the new zvol's device, and nothing else changed |
| QvmMachine.DeriveReady | qvm.py:120-141 | the derived descriptor has what the later stages read |
| QvmMachine.InstallCmdPrefix | qvm.py:210-226 | the command of a prefix of the options is a prefix of the command |
| QvmMachine.InstallCmdShape | qvm.py:204-227 | the command starts `virt-install --noautoconsole`; every option appears as `--key`, followed by the `k=v,` text of a nested option or by `str(value)` of a scalar one |
| QvmMachine.InstallCmdLength | qvm.py:207-226 | one argument per boolean option, two per other option, plus two |
| QvmMachine.BoolValueIgnored | qvm.py:222-223 | a boolean option's value does not change the command |
| QvmMachine.SameInstallCmd | qvm.py:210-226 | options producing the same arguments one by one produce the same command |
| QvmMachine.CreateGate | qvm.py:231-254 | the install runs only after a successful `--dry-run`; success needs both; every failure ends with destroying the target |
| QvmMachine.PipelineStops | qvm.py:402-409 | stages run in order up to and including the first that returns 1, which is the result; with no failure all run and the result is 0 |
| QvmMachine.VmRunIsPipeline | qvm.py:402-409 | the `vm` stage chain is that pipeline over its four stages |
| QvmMachine.IsoStageFacts | qvm.py:145-184 | the seed stage makes its directory first, runs only `genisoimage`, and returns 0 exactly when directory and image are made |
| QvmMachine.CloneStageFacts | qvm.py:188-201 | the clone stage runs only `zfs`, starts with the clone, returns 0 exactly when it succeeds, and otherwise ends with destroying the target |
| QvmMachine.VmRunSucceeds | qvm.py:396-409 | `qvm vm` returns 0 exactly when directory, seed image, clone, validation and install all succeed |
| QvmMachine.VmRunGating | qvm.py:402-409 | after a seed failure nothing else runs; the install runs only after a successful clone and validation; a failure after the clone ends with destroying the target |
| QvmMachine.VirtualMachine.constructor | qvm.py:120-141 | the fields are the derived descriptor, and `cmd` is not built yet |
| QvmMachine.VirtualMachine.CreateCloudinitIso | qvm.py:145-184 | runs the seed stage of the descriptor |
| QvmMachine.VirtualMachine.CloneBaseZvol | qvm.py:188-201 | runs the clone stage of the descriptor |
| QvmMachine.VirtualMachine.BuildCmd | qvm.py:204-227 | sets `cmd` to the install command of the `vm` options and returns 0, changing nothing else |
| QvmMachine.VirtualMachine.ChildOptionText | qvm.py:213-220 | the inner loop builds `k=v,` for every child of a nested option |
| QvmMachine.VirtualMachine.Create | qvm.py:231-254 | runs the validate-then-install stage with the built command |
| QvmImage.MiB | qvm.py:279 | the fewest whole MiB that hold the image |
| QvmImage.VolSizeValue | qvm.py:279 | `volsize` is decimal digits and `M`, the digits read as the size in MiB rounded up |
| QvmImage.VolSizeExamples | qvm.py:279 | 1 byte and 1 MiB give `1M`, one byte more gives `2M`, 0 bytes gives `0M` |
| QvmImage.DefaultImageProps | qvm.py:268-279 | without caller properties `create` receives exactly `volblocksize=16K`, `refreservation=none` and `volsize` |
| QvmImage.CallerImageProps | qvm.py:279 | caller properties keep their values except `volsize`, which is set from the image |
| QvmImage.ImageCreateCmd | qvm.py:279-293 | the create command carries `-V` and the size, and names the zvol last |
| QvmImage.ImportCloudImg | qvm.py:259-378 | the steps compute the import specification: the image checks, `zfs create`, the handlers, the device checks, the copy and the snapshot |
| QvmImage.FinishImport | qvm.py:292-378 | the steps after `zfs create` compute what follows it in the specification |
| QvmImage.AfterCreateFacts | qvm.py:292-378 | the create command comes first; copy and snapshot need a successful create and a usable device; an exception escapes exactly when it is not handled; a failure after the create ends with destroying the zvol; 0 exactly when every step succeeds |
| QvmImage.ImageGating | qvm.py:259-378 | nothing runs unless the image exists, has a size and opens; the escaping exception names the zvol; the import returns 0 exactly when every step succeeds |
| QvmMain.Dispatch | qvm.py:390-416 | `main` computes its specification for every command line |
| QvmMain.ProvisionVm | qvm.py:396-409 | builds the VirtualMachine and runs its stages |
| QvmMain.RunStages | qvm.py:402-409 | the stages run in order and return 1 at the first failure, leaving the descriptor unchanged |
| QvmMain.MainDispatchCases | qvm.py:390-416 | any other command line returns 1 with no effect; the result is 0 or 1 unless an exception escapes, and one escapes only from `qvm image` |
| QvmMain.MainVm | qvm.py:396-409 | a file that does not import returns 1 with no effect; otherwise the result and effects are those of the four-stage pipeline |
| QvmMain.MainImage | qvm.py:410-416 | `qvm image` has the effects of importing into the expanded ZVOL with default properties and returns 0 unless an exception escapes |

## Left out

- Running commands. `subprocess.check_output` is the Runner. The
  `genisoimage`, `zfs` and `virt-install` programs and their outputs are
  inputs.
- YAML. Parsing the stream and `yaml.dump` are not part of this model.
  `import_yaml` receives the documents, and a seed file receives its
  dictionary. A YAML syntax error, which raises out of `import_yaml`, is
  not modelled.
- File contents. Reading the image, writing, flushing and syncing the
  device are one `CopyImage` effect. An I/O error during the copy, which
  the code does not handle, is not modelled.
- libzfs_core. `lzc_snapshot` is a yes/no answer of the host.
- Printed messages. Everything `print` and `error_print` write is left
  out; only the return value and the effects are modelled.
- The process exit status. `main()` is called without `sys.exit`, so its
  value never reaches the shell. The model states the value `main`
  returns.
- The host's randomness and paths. `randrange(999999)` is a number
  supplied by the host below 999999. `os.path.expanduser` is a function
  supplied by the host.
- `QvmImage.MiB`: the size uses exact integer ceiling division where the
  code uses `ceil` on a float. The two can differ only for images above
  2^53 bytes, where `float` rounds the size.
- Dictionary order. The Python 2 iteration order is not modelled; the
  pairs are taken in whatever order they come.
- `ZfsCli.ExceptionMapper`: the table is searched in the order it is
  written, while CPython 2.7 iterates the `mappings` dict in hash order.
  The two agree on every text that contains at most one key. That case is
  proved for every order (`ZfsCli.OneKeyAnyOrder`). For a text with two
  keys that name different exceptions, the model's answer may differ
  from CPython's.
- `ZfsCli.Create` requires that a non-zvol create has properties. With
  `props=None` and another dataset type the code crashes on
  `None.iteritems()`; qvm never calls it that way.
- `ZfsCli.Create` also requires a `volsize` property to be a string.
  The code hands it to the command unconverted, and a number there would
  make `subprocess` raise. `import_cloud_img` always sets it as a string.
- `ZfsCli.Clone` requires a properties dictionary. The guard
  `props is not None or len(props) != 0` crashes with `None`, and qvm
  always passes a dictionary.
- `QvmConfig.Importable` holds only when the import reaches its `disk`
  checks (qvm.py:80-89). There it requires that `disk` is a dict or a string.
  The `in` of an integer, boolean or null raises `TypeError`. A list is
  deliberately excluded: it is carried as `VOther`, which keeps only its
  text, so `'zvol' in disk` cannot be asked of it.
- `QvmConfig.Importable` also requires that a `disk` containing `zvol` is
  a dict. An indexed string raises `TypeError` at qvm.py:85. Its `zvol`
  must be a dict or a string, for the same reason as `disk`.
- `QvmMachine.Provisionable` requires, as crashes of `__init__`
  (qvm.py:120-141), a `name` in the vm document, a zvol that is a dict (a
  string zvol containing `base` imports, then cannot be indexed by
  `'base'`) and a string `base`.
- `QvmMachine.Provisionable` also requires that no nested option value, no
  zvol property and not `name` is itself a dict. This is a deliberate
  exclusion, not a crash: the code formats such a value with `str()` or
  `format`, and the model has no text for a dict, because that text depends
  on its hash order. `ZfsCli.Create` and `ZfsCli.Clone` require flat
  properties for the same reason.
- `self.cmd` before `build_cmd`. The constructor leaves `cmd` empty, where
  Python has no attribute yet.
- Caller property mutation. `import_cloud_img` writes `volsize` into the
  caller's dictionary. `main` passes none, and the model returns the new
  properties instead.
- `usage_message`, `error_print` and the printed success lines are output
  only.
