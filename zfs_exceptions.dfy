/** The table in zfs_cli/exceptions.py: substrings of a `zfs` error line and
    the libzfs_core exception each one stands for. */
module ZfsExceptions {
  import opened Strings

  /** The names of the libzfs_core exception classes the table and its
      fallback can produce; one constructor per name instead of a `getattr`
      lookup of a string. */
  datatype ErrorName =
    | DatasetNotFound
    | FilesystemExists
    | NameInvalid
    | NameTooLong
    | ParentNotFound
    | PoolsDiffer
    | PoolNotFound
    | PropertyInvalid
    | ZFSGenericError

  const K0 := "dataset does not exist"
  const K1 := "dataset already exists"
  const K2 := "invalid character"
  const K3 := "name is too long"
  const K4 := "parent does not exist"
  const K5 := "source and target pools differ"
  const K6 := "no such pool"
  const K7 := "invalid property"

  /** `mappings`, in one of the orders a Python 2 dict may iterate it. */
  const Mappings: seq<(string, ErrorName)> := [
      (K0, DatasetNotFound),
      (K1, FilesystemExists),
      (K2, NameInvalid),
      (K3, NameTooLong),
      (K4, ParentNotFound),
      (K5, PoolsDiffer),
      (K6, PoolNotFound),
      (K7, PropertyInvalid)
    ]

  /** No table value is the generic fallback. */
  lemma MappingsNeverGeneric()
    ensures forall i | 0 <= i < |Mappings| :: Mappings[i].1 != ZFSGenericError
  {
  }

  /** Each key names a different exception. */
  lemma MappingsValuesDistinct()
    ensures forall i, j | 0 <= i < j < |Mappings| :: Mappings[i].1 != Mappings[j].1
  {
  }

  /** Plain text: not empty, no colon, no whitespace at either end. */
  predicate PlainKey(k: string) {
    k != [] && ':' !in k && !IsSpace(k[0]) && !IsSpace(k[|k| - 1])
  }

  /** Every key is plain text. */
  lemma MappingsKeysPlain()
    ensures forall i | 0 <= i < |Mappings| :: PlainKey(Mappings[i].0)
  {
    KeysPlain0(); KeysPlain1(); KeysPlain2(); KeysPlain3();
    KeysPlain4(); KeysPlain5(); KeysPlain6(); KeysPlain7();
  }

  // KeysPlain<n>: key n is plain text, one key at a time.
  lemma KeysPlain0()
    ensures PlainKey(K0)
  {
  }

  lemma KeysPlain1()
    ensures PlainKey(K1)
  {
  }

  lemma KeysPlain2()
    ensures PlainKey(K2)
  {
  }

  lemma KeysPlain3()
    ensures PlainKey(K3)
  {
  }

  lemma KeysPlain4()
    ensures PlainKey(K4)
  {
  }

  lemma KeysPlain5()
    ensures PlainKey(K5)
  {
  }

  lemma KeysPlain6()
    ensures PlainKey(K6)
  {
  }

  lemma KeysPlain7()
    ensures PlainKey(K7)
  {
  }

  /** No key occurs inside another key, so a text that is exactly one key
      contains no other. */
  lemma MappingsKeysIndependent()
    ensures forall i, j | 0 <= i < |Mappings| && 0 <= j < |Mappings| && i != j ::
              !Contains(Mappings[j].0, Mappings[i].0)
  {
    Key0InNoOtherA();
    Key0InNoOtherB();
    Key0InNoOtherC();
    Key0InNoOtherD();
    Key1InNoOtherA();
    Key1InNoOtherB();
    Key1InNoOtherC();
    Key1InNoOtherD();
    Key2InNoOtherA();
    Key2InNoOtherB();
    Key2InNoOtherC();
    Key2InNoOtherD();
    Key3InNoOtherA();
    Key3InNoOtherB();
    Key3InNoOtherC();
    Key3InNoOtherD();
    Key4InNoOtherA();
    Key4InNoOtherB();
    Key4InNoOtherC();
    Key4InNoOtherD();
    Key5InNoOtherA();
    Key5InNoOtherB();
    Key5InNoOtherC();
    Key5InNoOtherD();
    Key6InNoOtherA();
    Key6InNoOtherB();
    Key6InNoOtherC();
    Key6InNoOtherD();
    Key7InNoOtherA();
    Key7InNoOtherB();
    Key7InNoOtherC();
    Key7InNoOtherD();
  }

  // Key<n>InNoOther<X>: key n occurs in none of the other keys, two keys at a
  // time; a key longer than the text cannot occur in it, and neither can a
  // key holding a character the text lacks.
  lemma Key0InNoOtherA()
    ensures !Contains(K1, K0) && !Contains(K2, K0)
  {
    MissingCharExcludes(K1, K0, 9);
    LongerExcludes(K2, K0);
  }

  lemma Key0InNoOtherB()
    ensures !Contains(K3, K0) && !Contains(K4, K0)
  {
    LongerExcludes(K3, K0);
    LongerExcludes(K4, K0);
  }

  lemma Key0InNoOtherC()
    ensures !Contains(K5, K0) && !Contains(K6, K0)
  {
    MissingCharExcludes(K5, K0, 18);
    LongerExcludes(K6, K0);
  }

  lemma Key0InNoOtherD()
    ensures !Contains(K7, K0)
  {
    LongerExcludes(K7, K0);
  }

  lemma Key1InNoOtherA()
    ensures !Contains(K0, K1) && !Contains(K2, K1)
  {
    MissingCharExcludes(K0, K1, 9);
    LongerExcludes(K2, K1);
  }

  lemma Key1InNoOtherB()
    ensures !Contains(K3, K1) && !Contains(K4, K1)
  {
    LongerExcludes(K3, K1);
    LongerExcludes(K4, K1);
  }

  lemma Key1InNoOtherC()
    ensures !Contains(K5, K1) && !Contains(K6, K1)
  {
    MissingCharExcludes(K5, K1, 14);
    LongerExcludes(K6, K1);
  }

  lemma Key1InNoOtherD()
    ensures !Contains(K7, K1)
  {
    LongerExcludes(K7, K1);
  }

  lemma Key2InNoOtherA()
    ensures !Contains(K0, K2) && !Contains(K1, K2)
  {
    MissingCharExcludes(K0, K2, 2);
    MissingCharExcludes(K1, K2, 1);
  }

  lemma Key2InNoOtherB()
    ensures !Contains(K3, K2) && !Contains(K4, K2)
  {
    LongerExcludes(K3, K2);
    MissingCharExcludes(K4, K2, 2);
  }

  lemma Key2InNoOtherC()
    ensures !Contains(K5, K2) && !Contains(K6, K2)
  {
    MissingCharExcludes(K5, K2, 2);
    LongerExcludes(K6, K2);
  }

  lemma Key2InNoOtherD()
    ensures !Contains(K7, K2)
  {
    LongerExcludes(K7, K2);
  }

  lemma Key3InNoOtherA()
    ensures !Contains(K0, K3) && !Contains(K1, K3)
  {
    MissingCharExcludes(K0, K3, 2);
    MissingCharExcludes(K1, K3, 0);
  }

  lemma Key3InNoOtherB()
    ensures !Contains(K2, K3) && !Contains(K4, K3)
  {
    MissingCharExcludes(K2, K3, 2);
    MissingCharExcludes(K4, K3, 2);
  }

  lemma Key3InNoOtherC()
    ensures !Contains(K5, K3) && !Contains(K6, K3)
  {
    MissingCharExcludes(K5, K3, 2);
    LongerExcludes(K6, K3);
  }

  lemma Key3InNoOtherD()
    ensures !Contains(K7, K3)
  {
    MissingCharExcludes(K7, K3, 2);
  }

  lemma Key4InNoOtherA()
    ensures !Contains(K0, K4) && !Contains(K1, K4)
  {
    MissingCharExcludes(K0, K4, 0);
    MissingCharExcludes(K1, K4, 0);
  }

  lemma Key4InNoOtherB()
    ensures !Contains(K2, K4) && !Contains(K3, K4)
  {
    LongerExcludes(K2, K4);
    LongerExcludes(K3, K4);
  }

  lemma Key4InNoOtherC()
    ensures !Contains(K5, K4) && !Contains(K6, K4)
  {
    MissingCharExcludes(K5, K4, 17);
    LongerExcludes(K6, K4);
  }

  lemma Key4InNoOtherD()
    ensures !Contains(K7, K4)
  {
    LongerExcludes(K7, K4);
  }

  lemma Key5InNoOtherA()
    ensures !Contains(K0, K5) && !Contains(K1, K5)
  {
    LongerExcludes(K0, K5);
    LongerExcludes(K1, K5);
  }

  lemma Key5InNoOtherB()
    ensures !Contains(K2, K5) && !Contains(K3, K5)
  {
    LongerExcludes(K2, K5);
    LongerExcludes(K3, K5);
  }

  lemma Key5InNoOtherC()
    ensures !Contains(K4, K5) && !Contains(K6, K5)
  {
    LongerExcludes(K4, K5);
    LongerExcludes(K6, K5);
  }

  lemma Key5InNoOtherD()
    ensures !Contains(K7, K5)
  {
    LongerExcludes(K7, K5);
  }

  lemma Key6InNoOtherA()
    ensures !Contains(K0, K6) && !Contains(K1, K6)
  {
    MissingCharExcludes(K0, K6, 4);
    MissingCharExcludes(K1, K6, 0);
  }

  lemma Key6InNoOtherB()
    ensures !Contains(K2, K6) && !Contains(K3, K6)
  {
    MissingCharExcludes(K2, K6, 1);
    MissingCharExcludes(K3, K6, 4);
  }

  lemma Key6InNoOtherC()
    ensures !Contains(K4, K6) && !Contains(K5, K6)
  {
    MissingCharExcludes(K4, K6, 4);
    MissingCharExcludes(K5, K6, 6);
  }

  lemma Key6InNoOtherD()
    ensures !Contains(K7, K6)
  {
    MissingCharExcludes(K7, K6, 3);
  }

  lemma Key7InNoOtherA()
    ensures !Contains(K0, K7) && !Contains(K1, K7)
  {
    MissingCharExcludes(K0, K7, 2);
    MissingCharExcludes(K1, K7, 1);
  }

  lemma Key7InNoOtherB()
    ensures !Contains(K2, K7) && !Contains(K3, K7)
  {
    MissingCharExcludes(K2, K7, 8);
    MissingCharExcludes(K3, K7, 2);
  }

  lemma Key7InNoOtherC()
    ensures !Contains(K4, K7) && !Contains(K5, K7)
  {
    MissingCharExcludes(K4, K7, 2);
    MissingCharExcludes(K5, K7, 2);
  }

  lemma Key7InNoOtherD()
    ensures !Contains(K6, K7)
  {
    LongerExcludes(K6, K7);
  }
}
