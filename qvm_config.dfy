/** qvm.py `import_yaml`: checking the documents of a qvm file and splitting
    them into the user-data, meta-data, vm and zvol dictionaries.

    The file's existence and its parsed documents are inputs; reading and
    parsing the YAML stream are not part of this model. */
module QvmConfig {
  import opened Wrappers
  import opened YamlValues

  /** Why `import_yaml` returned 1; each reason prints its own message. */
  datatype ImportError =
    | ConfigNotFound
    | MissingSpecifier
    | MissingDocument
    | MissingDisk
    | MissingZvol
    | MissingBase

  /** The dictionary `import_yaml` returns on success. `zvol` is whatever
      `vm['disk']['zvol']` held: a dictionary, or a string containing
      `base`. */
  datatype Bundle = Bundle(userdata: Dict, metadata: Dict, vm: Dict, zvol: Value)

  datatype Import = ImportFailed(why: ImportError) | Imported(bundle: Bundle)

  /** The document has the `qvm` specifier key. */
  predicate Tagged(doc: Dict) {
    Has(doc, "qvm")
  }

  /** `doc['qvm'] == tag` */
  predicate TaggedAs(doc: Dict, tag: string) {
    Lookup(doc, "qvm") == Some(VStr(tag))
  }

  /** What the loop leaves in the variable for `tag`: the last document
      tagged `tag`, with its `qvm` key deleted. */
  function Latest(docs: seq<Dict>, tag: string): (r: Option<Dict>)
    ensures r.Some? ==> !Has(r.value, "qvm")
  {
    if docs == [] then None
    else if TaggedAs(docs[|docs| - 1], tag) then Some(Remove(docs[|docs| - 1], "qvm"))
    else Latest(docs[..|docs| - 1], tag)
  }

  /** Latest finds nothing exactly when no document carries the tag. */
  lemma {:induction false} LatestNone(docs: seq<Dict>, tag: string)
    ensures Latest(docs, tag).None? <==> forall i | 0 <= i < |docs| :: !TaggedAs(docs[i], tag)
  {
    if docs != [] {
      var init := docs[..|docs| - 1];
      LatestNone(init, tag);
      assert forall i | 0 <= i < |init| :: init[i] == docs[i];
    }
  }

  /** Latest finds the document tagged `tag` that no later one replaces. */
  lemma {:induction false} LatestIsLastTagged(docs: seq<Dict>, tag: string) returns (i: nat)
    requires Latest(docs, tag).Some?
    ensures i < |docs| && TaggedAs(docs[i], tag)
    ensures forall j | i < j < |docs| :: !TaggedAs(docs[j], tag)
    ensures Latest(docs, tag).value == Remove(docs[i], "qvm")
  {
    var n := |docs| - 1;
    if TaggedAs(docs[n], tag) {
      i := n;
    } else {
      var init := docs[..n];
      i := LatestIsLastTagged(init, tag);
      assert docs[i] == init[i];
      forall j | i < j < |docs| ensures !TaggedAs(docs[j], tag) {
        if j < n { assert docs[j] == init[j]; }
      }
    }
  }

  /** A document is ignored by every tag it does not carry, wherever it
      stands. */
  lemma {:induction false} LatestSkips(front: seq<Dict>, doc: Dict, back: seq<Dict>, tag: string)
    requires !TaggedAs(doc, tag)
    ensures Latest(front + [doc] + back, tag) == Latest(front + back, tag)
  {
    if back == [] {
      assert front + [doc] + back == front + [doc];
      assert (front + [doc])[..|front|] == front;
      assert front + back == front;
    } else {
      var init := back[..|back| - 1];
      LatestSkips(front, doc, init, tag);
      assert (front + [doc] + back)[..|front| + |back|] == front + [doc] + init;
      assert (front + back)[..|front| + |back| - 1] == front + init;
    }
  }

  /** A document tagged `tag` replaces whatever was kept for it before. */
  lemma LaterReplaces(docs: seq<Dict>, doc: Dict, tag: string)
    requires TaggedAs(doc, tag)
    ensures Latest(docs + [doc], tag) == Some(Remove(doc, "qvm"))
  {
  }

  /** `vm['disk']`, when it is a dictionary. */
  function Disk(vm: Dict): Dict
    requires Lookup(vm, "disk").Some? && Lookup(vm, "disk").value.VMap?
  {
    Lookup(vm, "disk").value.entries
  }

  /** `vm['disk']['zvol']`, when `disk` is a dictionary holding `zvol`. */
  function Zvol(vm: Dict): Value
    requires Lookup(vm, "disk").Some? && Lookup(vm, "disk").value.VMap?
    requires Has(Disk(vm), "zvol")
  {
    Lookup(Disk(vm), "zvol").value
  }

  /** What the checks of `vm` test with `in` or index is of a kind the model
      covers: `vm['disk']` is a dictionary or a string; it is indexed only
      when it is a dictionary (`vm['disk']['zvol']` on a string raises
      TypeError); and `vm['disk']['zvol']` is a dictionary or a string. */
  predicate DiskShaped(vm: Dict) {
    Has(vm, "disk") ==>
      var disk := Lookup(vm, "disk").value;
      && Container(disk)
      && (In("zvol", disk) ==> disk.VMap? && Container(Zvol(vm)))
  }

  /** `import_yaml` gets as far as the checks of `vm`: the file exists,
      every document is tagged and all three documents are present. */
  predicate ReachesVm(fileExists: bool, docs: seq<Dict>) {
    && fileExists
    && (forall i | 0 <= i < |docs| :: Tagged(docs[i]))
    && Latest(docs, "user-data").Some? && Latest(docs, "meta-data").Some? && Latest(docs, "vm").Some?
  }

  /** The vm document is DiskShaped whenever its checks are reached. */
  predicate Importable(fileExists: bool, docs: seq<Dict>) {
    ReachesVm(fileExists, docs) ==> DiskShaped(Latest(docs, "vm").value)
  }

  /** The checks of `import_yaml`, in the order it makes them, and on success
      the four dictionaries, `zvol` moved out of `vm['disk']`. */
  function ImportSpec(fileExists: bool, docs: seq<Dict>): Import
    requires Importable(fileExists, docs)
  {
    if !fileExists then ImportFailed(ConfigNotFound)
    else if exists i | 0 <= i < |docs| :: !Tagged(docs[i]) then ImportFailed(MissingSpecifier)
    else SplitDocuments(Latest(docs, "user-data"), Latest(docs, "meta-data"), Latest(docs, "vm"))
  }

  /** The checks made on the documents the loop kept: all three present, then
      `'disk' in vm`, `'zvol' in vm['disk']` and `'base' in zvol`, and the
      split of `zvol` out of `vm['disk']`. */
  function SplitDocuments(userdata: Option<Dict>, metadata: Option<Dict>, vm: Option<Dict>): Import
    requires userdata.Some? && metadata.Some? && vm.Some? ==> DiskShaped(vm.value)
  {
    if userdata.None? || metadata.None? || vm.None? then ImportFailed(MissingDocument)
    else if !Has(vm.value, "disk") then ImportFailed(MissingDisk)
    else if !In("zvol", Lookup(vm.value, "disk").value) then ImportFailed(MissingZvol)
    else if !In("base", Zvol(vm.value)) then ImportFailed(MissingBase)
    else
      var disk := Remove(Disk(vm.value), "zvol");
      Imported(Bundle(userdata.value, metadata.value, Put(vm.value, "disk", VMap(disk)), Zvol(vm.value)))
  }

  /** `import_yaml(vm_file)`: one pass over the documents that stops at the
      first one without a specifier, keeps the last document of each known
      tag, and then checks the vm document from the outside in. */
  method ImportYaml(fileExists: bool, docs: seq<Dict>) returns (r: Import)
    requires Importable(fileExists, docs)
    ensures r == ImportSpec(fileExists, docs)
  {
    if !fileExists {
      return ImportFailed(ConfigNotFound);
    }
    var userdata: Option<Dict> := None;
    var metadata: Option<Dict> := None;
    var vm: Option<Dict> := None;
    var i := 0;
    while i < |docs|
      invariant 0 <= i <= |docs|
      invariant forall j | 0 <= j < i :: Tagged(docs[j])
      invariant userdata == Latest(docs[..i], "user-data")
      invariant metadata == Latest(docs[..i], "meta-data")
      invariant vm == Latest(docs[..i], "vm")
    {
      var document := docs[i];
      assert docs[..i + 1][..i] == docs[..i];
      if !Has(document, "qvm") {
        return ImportFailed(MissingSpecifier);
      } else if Lookup(document, "qvm") == Some(VStr("user-data")) {
        userdata := Some(Remove(document, "qvm"));
      } else if Lookup(document, "qvm") == Some(VStr("meta-data")) {
        metadata := Some(Remove(document, "qvm"));
      } else if Lookup(document, "qvm") == Some(VStr("vm")) {
        vm := Some(Remove(document, "qvm"));
      }
      i := i + 1;
    }
    assert docs[..i] == docs;
    if userdata.None? || metadata.None? || vm.None? {
      return ImportFailed(MissingDocument);
    }
    var v := vm.value;
    if !Has(v, "disk") {
      return ImportFailed(MissingDisk);
    }
    var disk := Lookup(v, "disk").value;
    if !In("zvol", disk) {
      return ImportFailed(MissingZvol);
    }
    var zvol := Lookup(disk.entries, "zvol").value;
    if !In("base", zvol) {
      return ImportFailed(MissingBase);
    }
    v := Put(v, "disk", VMap(Remove(disk.entries, "zvol")));
    r := Imported(Bundle(userdata.value, metadata.value, v, zvol));
  }

  /** A document without the specifier fails the import, whatever the
      documents before or after it hold. */
  lemma UntaggedFails(docs: seq<Dict>, i: nat)
    requires i < |docs| && !Tagged(docs[i])
    ensures Importable(true, docs) && ImportSpec(true, docs) == ImportFailed(MissingSpecifier)
  {
  }

  /** A document whose tag is none of user-data, meta-data and vm changes
      nothing, wherever it is inserted. */
  lemma UnknownTagIgnored(fileExists: bool, front: seq<Dict>, doc: Dict, back: seq<Dict>)
    requires Tagged(doc) && !TaggedAs(doc, "user-data") && !TaggedAs(doc, "meta-data") && !TaggedAs(doc, "vm")
    ensures Importable(fileExists, front + [doc] + back) <==> Importable(fileExists, front + back)
    ensures Importable(fileExists, front + back) ==>
              ImportSpec(fileExists, front + [doc] + back) == ImportSpec(fileExists, front + back)
  {
    var with, without := front + [doc] + back, front + back;
    LatestSkips(front, doc, back, "user-data");
    LatestSkips(front, doc, back, "meta-data");
    LatestSkips(front, doc, back, "vm");
    assert (exists i | 0 <= i < |with| :: !Tagged(with[i])) <==> (exists i | 0 <= i < |without| :: !Tagged(without[i])) by {
      if i :| 0 <= i < |with| && !Tagged(with[i]) {
        assert i != |front|;
        assert !Tagged(without[if i < |front| then i else i - 1]);
      }
      if i :| 0 <= i < |without| && !Tagged(without[i]) {
        assert !Tagged(with[if i < |front| then i else i + 1]);
      }
    }
  }

  /** With every document tagged, an import fails for a missing document
      exactly when no document carries one of the three tags; the vm
      document is then never looked into. */
  lemma ImportMissingDocument(docs: seq<Dict>)
    requires forall i | 0 <= i < |docs| :: Tagged(docs[i])
    ensures var missing :=
              || (forall i | 0 <= i < |docs| :: !TaggedAs(docs[i], "user-data"))
              || (forall i | 0 <= i < |docs| :: !TaggedAs(docs[i], "meta-data"))
              || (forall i | 0 <= i < |docs| :: !TaggedAs(docs[i], "vm"));
            && (missing ==> Importable(true, docs))
            && (Importable(true, docs) ==> (ImportSpec(true, docs) == ImportFailed(MissingDocument) <==> missing))
  {
    LatestNone(docs, "user-data");
    LatestNone(docs, "meta-data");
    LatestNone(docs, "vm");
  }

  /** With all three documents present, `disk`, then `zvol`, then `base` is
      looked for, each with Python's `in`, and the first one missing is the
      reason reported. */
  lemma ImportMissingKeys(docs: seq<Dict>)
    requires Importable(true, docs)
    requires forall i | 0 <= i < |docs| :: Tagged(docs[i])
    requires Latest(docs, "user-data").Some? && Latest(docs, "meta-data").Some? && Latest(docs, "vm").Some?
    ensures var vm := Latest(docs, "vm").value;
            && (ImportSpec(true, docs) == ImportFailed(MissingDisk) <==> !Has(vm, "disk"))
            && (ImportSpec(true, docs) == ImportFailed(MissingZvol) <==>
                  Has(vm, "disk") && !In("zvol", Lookup(vm, "disk").value))
            && (ImportSpec(true, docs) == ImportFailed(MissingBase) <==>
                  Has(vm, "disk") && In("zvol", Lookup(vm, "disk").value) && !In("base", Zvol(vm)))
  {
    ReachedSplit(docs);
    SplitReasons(Latest(docs, "user-data").value, Latest(docs, "meta-data").value, Latest(docs, "vm").value);
  }

  /** Once every document is tagged, the import is the split of the kept
      documents. */
  lemma ReachedSplit(docs: seq<Dict>)
    requires ReachesVm(true, docs) && Importable(true, docs)
    ensures ImportSpec(true, docs) == SplitDocuments(Latest(docs, "user-data"), Latest(docs, "meta-data"), Latest(docs, "vm"))
  {
    assert !exists i | 0 <= i < |docs| :: !Tagged(docs[i]);
  }

  /** The reasons SplitDocuments gives once all three documents are there. */
  lemma SplitReasons(userdata: Dict, metadata: Dict, vm: Dict)
    requires DiskShaped(vm)
    ensures var r := SplitDocuments(Some(userdata), Some(metadata), Some(vm));
            && (r == ImportFailed(MissingDisk) <==> !Has(vm, "disk"))
            && (r == ImportFailed(MissingZvol) <==> Has(vm, "disk") && !In("zvol", Lookup(vm, "disk").value))
            && (r == ImportFailed(MissingBase) <==>
                  Has(vm, "disk") && In("zvol", Lookup(vm, "disk").value) && !In("base", Zvol(vm)))
  {
  }

  /** On success no returned dictionary keeps the specifier, `vm['disk']` is
      a dictionary that no longer holds `zvol`, the returned `zvol` is the
      one the last vm document held and still contains `base`, and the rest
      of the vm document is untouched. */
  lemma ImportedShape(fileExists: bool, docs: seq<Dict>)
    requires Importable(fileExists, docs)
    requires ImportSpec(fileExists, docs).Imported?
    ensures var b := ImportSpec(fileExists, docs).bundle;
            var vm := Latest(docs, "vm").value;
            && !Has(b.userdata, "qvm") && !Has(b.metadata, "qvm") && !Has(b.vm, "qvm")
            && Lookup(vm, "disk").Some? && Lookup(vm, "disk").value.VMap? && Has(Disk(vm), "zvol")
            && Lookup(b.vm, "disk").Some? && Lookup(b.vm, "disk").value.VMap?
            && !Has(Disk(b.vm), "zvol")
            && b.zvol == Zvol(vm) && Container(b.zvol) && In("base", b.zvol)
            && (forall k | k != "zvol" :: Lookup(Disk(b.vm), k) == Lookup(Disk(vm), k))
            && (forall k | k != "disk" :: Lookup(b.vm, k) == Lookup(vm, k))
  {
  }
}
