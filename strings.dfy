/** The small part of Python's `str` behaviour that qvm relies on, on `seq<char>`:
    `strip()`, `rpartition()`, the substring test `key in text`, `str()` of an
    integer, the `'/' * n` test and `os.path.dirname`. */
module Strings {

  /** The characters Python 2's `str.strip()` removes (ASCII whitespace). */
  predicate IsSpace(c: char) {
    c == ' ' || c == '\t' || c == '\n' || c == '\r' || c == '\U{000B}' || c == '\U{000C}'
  }

  function TrimLeft(s: string): (r: string)
    ensures |r| <= |s| && r == s[|s| - |r|..]
    ensures forall i :: 0 <= i < |s| - |r| ==> IsSpace(s[i])
    ensures r != [] ==> !IsSpace(r[0])
  {
    if s != [] && IsSpace(s[0]) then TrimLeft(s[1..]) else s
  }

  function TrimRight(s: string): (r: string)
    ensures |r| <= |s| && r == s[..|r|]
    ensures forall i :: |r| <= i < |s| ==> IsSpace(s[i])
    ensures r != [] ==> !IsSpace(r[|r| - 1])
  {
    if s != [] && IsSpace(s[|s| - 1]) then TrimRight(s[..|s| - 1]) else s
  }

  /** `s.strip()` */
  function Strip(s: string): string {
    TrimRight(TrimLeft(s))
  }

  /** `s.strip()` is the slice of `s` left when the whitespace at both ends
      is removed: what is removed is whitespace, and what is kept neither
      starts nor ends with it. */
  lemma StripIsSlice(s: string) returns (i: nat, j: nat)
    ensures i <= j <= |s| && Strip(s) == s[i..j]
    ensures forall k :: 0 <= k < i ==> IsSpace(s[k])
    ensures forall k :: j <= k < |s| ==> IsSpace(s[k])
    ensures Strip(s) != [] ==> !IsSpace(Strip(s)[0]) && !IsSpace(Strip(s)[|Strip(s)| - 1])
  {
    var l := TrimLeft(s);
    var r := TrimRight(l);
    i, j := |s| - |l|, |s| - |l| + |r|;
    assert r == s[i..j];
    forall k | j <= k < |s| ensures IsSpace(s[k]) {
      SuffixAt(s, l, k);
    }
  }

  lemma SuffixAt(s: string, l: string, k: nat)
    requires |l| <= |s| && l == s[|s| - |l|..] && |s| - |l| <= k < |s|
    ensures s[k] == l[k - (|s| - |l|)]
  {
  }

  /** `s.rpartition(sep)` for a one-character separator: the text before the
      last `sep`, the separator, and the text after it; `("", "", s)` when
      `sep` does not occur. */
  function RPartition(s: string, sep: char): (p: (string, string, string))
    ensures sep in s ==> p.0 + [sep] + p.2 == s && p.1 == [sep] && sep !in p.2
    ensures sep !in s ==> p == ("", "", s)
  {
    if s == [] then ("", "", "")
    else if s[|s| - 1] == sep then
      assert s == s[..|s| - 1] + [sep];
      (s[..|s| - 1], [sep], "")
    else
      var p := RPartition(s[..|s| - 1], sep);
      assert s == s[..|s| - 1] + [s[|s| - 1]];
      (p.0, p.1, p.2 + [s[|s| - 1]])
  }

  /** A split of `s` at a separator with no further separator after it is
      the one `rpartition` finds. */
  lemma {:induction false} RPartitionAt(head: string, sep: char, tail: string)
    requires sep !in tail
    ensures RPartition(head + [sep] + tail, sep) == (head, [sep], tail)
  {
    var s := head + [sep] + tail;
    if tail == [] {
      assert s[..|s| - 1] == head;
    } else {
      var rest := tail[..|tail| - 1];
      RPartitionAt(head, sep, rest);
      assert s[..|s| - 1] == head + [sep] + rest;
      assert s[|s| - 1] == tail[|tail| - 1];
      assert rest + [tail[|tail| - 1]] == tail;
    }
  }

  /** `key` occurs in `text` starting at index `i`. */
  predicate OccursAt(text: string, key: string, i: nat) {
    i + |key| <= |text| && text[i..i + |key|] == key
  }

  /** Python's substring test `key in text`. */
  predicate Contains(text: string, key: string) {
    exists i: nat | i <= |text| :: OccursAt(text, key, i)
  }

  /** A character of `key` that `text` lacks rules out every occurrence. */
  lemma MissingCharExcludes(text: string, key: string, j: nat)
    requires j < |key| && key[j] !in text
    ensures !Contains(text, key)
  {
  }

  /** A text never contains a longer key. */
  lemma LongerExcludes(text: string, key: string)
    requires |text| < |key|
    ensures !Contains(text, key)
  {
  }

  function Digit(d: nat): (c: char)
    requires d < 10
    ensures '0' <= c <= '9' && (c - '0') as nat == d
  {
    ('0' as int + d) as char
  }

  /** The value of a string of decimal digits. */
  function DigitsValue(s: string): nat
    requires forall i :: 0 <= i < |s| ==> '0' <= s[i] <= '9'
  {
    if s == [] then 0 else 10 * DigitsValue(s[..|s| - 1]) + (s[|s| - 1] - '0') as nat
  }

  /** `str(n)` of a non-negative integer: decimal digits, no leading zero. */
  function NatToString(n: nat): (r: string)
    ensures |r| >= 1
    ensures forall i :: 0 <= i < |r| ==> '0' <= r[i] <= '9'
    ensures r[0] == '0' ==> n == 0
  {
    if n < 10 then [Digit(n)] else NatToString(n / 10) + [Digit(n % 10)]
  }

  /** Reading back the digits of `str(n)` gives `n`. */
  lemma {:induction false} NatToStringValue(n: nat)
    ensures DigitsValue(NatToString(n)) == n
  {
    var r := NatToString(n);
    if n >= 10 {
      var q, d := n / 10, n % 10;
      NatToStringValue(q);
      assert r[..|r| - 1] == NatToString(q);
      assert (r[|r| - 1] - '0') as nat == d;
      assert n == 10 * q + d;
    }
  }

  /** Distinct numbers have distinct decimal strings. */
  lemma NatToStringInjective(m: nat, n: nat)
    requires NatToString(m) == NatToString(n)
    ensures m == n
  {
    NatToStringValue(m);
    NatToStringValue(n);
  }

  /** `str(i)` of a Python integer: its decimal digits, read back as `i`,
      after a minus sign when `i` is negative. */
  function IntToString(i: int): (r: string)
    ensures i >= 0 ==> (forall k :: 0 <= k < |r| ==> '0' <= r[k] <= '9') && DigitsValue(r) == i
    ensures i < 0 ==> |r| >= 2 && r[0] == '-'
                      && (forall k :: 1 <= k < |r| ==> '0' <= r[k] <= '9')
                      && DigitsValue(r[1..]) == -i
  {
    if i < 0 then
      var d := NatToString(-i);
      NatToStringValue(-i);
      assert ("-" + d)[1..] == d;
      "-" + d
    else
      NatToStringValue(i);
      NatToString(i)
  }

  /** `s == c * len(s)`: every character of `s` is `c`. */
  predicate AllChar(s: string, c: char) {
    forall i :: 0 <= i < |s| ==> s[i] == c
  }

  /** `s.rstrip(c)` for one character. */
  function RStripChar(s: string, c: char): (r: string)
    ensures |r| <= |s| && r == s[..|r|] && AllChar(s[|r|..], c)
    ensures r != [] ==> r[|r| - 1] != c
  {
    if s != [] && s[|s| - 1] == c then RStripChar(s[..|s| - 1], c) else s
  }

  /** `os.path.dirname` of Python's `posixpath`: everything up to and
      including the last `/`, with the trailing slashes removed unless the
      head is made of slashes only. */
  function Dirname(p: string): string {
    var head := if '/' in p then RPartition(p, '/').0 + "/" else "";
    if head != [] && !AllChar(head, '/') then RStripChar(head, '/') else head
  }

  /** The directory of `dir + "/" + file`, when `dir` does not end in a slash
      and is not made of slashes and `file` has none, is `dir`. */
  lemma DirnameOf(dir: string, file: string)
    requires dir != [] && dir[|dir| - 1] != '/' && '/' !in file
    ensures Dirname(dir + "/" + file) == dir
  {
    RPartitionAt(dir, '/', file);
    var head := dir + "/";
    assert head[|dir| - 1] != '/';
    assert RStripChar(head, '/') == RStripChar(dir, '/');
  }
}
