/** String operations over `seq<char>`: the Python operations the service
    calls (`rstrip`, `strip`, `os.path.join`, with `lstrip` as a building
    block of `strip`), plus `Split` and `Join`, which this model uses to
    describe and parse the storage key's layout. */
module Text {

  /** Position of the first occurrence of `c` in `s`, or `|s|` when `c` does not occur. */
  function IndexOf(s: string, c: char): (i: nat)
    ensures i <= |s|
    ensures i < |s| ==> s[i] == c
    ensures forall j :: 0 <= j < i ==> s[j] != c
  {
    if |s| == 0 then 0
    else if s[0] == c then 0
    else 1 + IndexOf(s[1..], c)
  }

  /** Same result as Python's `s.split(sep)` for a one-character separator: every occurrence
      of `sep` cuts, so empty pieces are kept. */
  function Split(s: string, sep: char): (parts: seq<string>)
    ensures |parts| >= 1
    ensures forall k :: 0 <= k < |parts| ==> sep !in parts[k]
    decreases |s|
  {
    var i := IndexOf(s, sep);
    if i == |s| then [s]
    else
      assert sep !in s[..i] by {
        forall j | 0 <= j < i ensures s[..i][j] != sep { }
      }
      [s[..i]] + Split(s[i + 1..], sep)
  }

  /** Same result as Python's `sep.join(parts)`. */
  function Join(parts: seq<string>, sep: char): string
  {
    if |parts| == 0 then ""
    else if |parts| == 1 then parts[0]
    else parts[0] + [sep] + Join(parts[1..], sep)
  }

  /** A piece free of the separator is split off as the first part. */
  lemma SplitAfterPiece(p: string, rest: string, sep: char)
    requires sep !in p
    ensures Split(p + [sep] + rest, sep) == [p] + Split(rest, sep)
  {
    var s := p + [sep] + rest;
    var i := IndexOf(s, sep);
    assert s[|p|] == sep;
    assert i == |p|;
    assert s[..i] == p;
    assert s[i + 1..] == rest;
  }

  /** Splitting a string free of the separator yields the string alone. */
  lemma SplitWithoutSeparator(s: string, sep: char)
    requires sep !in s
    ensures Split(s, sep) == [s]
  {
  }

  /** Joining a non-empty tail behind a first piece inserts one separator. */
  lemma JoinCons(p: string, rest: seq<string>, sep: char)
    requires |rest| >= 1
    ensures Join([p] + rest, sep) == p + [sep] + Join(rest, sep)
  {
  }

  /** Joining the pieces of a split restores the original string. */
  lemma {:induction false} JoinSplit(s: string, sep: char)
    ensures Join(Split(s, sep), sep) == s
    decreases |s|
  {
    var i := IndexOf(s, sep);
    if i < |s| {
      var head := s[..i];
      var tail := s[i + 1..];
      var rest := Split(tail, sep);
      assert Split(s, sep) == [head] + rest;
      JoinSplit(tail, sep);
      JoinCons(head, rest, sep);
      assert s == head + [sep] + tail;
    }
  }

  /** Splitting a join of separator-free pieces recovers the pieces. */
  lemma {:induction false} SplitJoin(parts: seq<string>, sep: char)
    requires |parts| >= 1
    requires forall k :: 0 <= k < |parts| ==> sep !in parts[k]
    ensures Split(Join(parts, sep), sep) == parts
    decreases |parts|
  {
    if |parts| == 1 {
      SplitWithoutSeparator(parts[0], sep);
    } else {
      var rest := parts[1..];
      assert forall k :: 0 <= k < |rest| ==> sep !in rest[k] by {
        forall k | 0 <= k < |rest| ensures sep !in rest[k] {
          assert rest[k] == parts[k + 1];
        }
      }
      SplitJoin(rest, sep);
      assert sep !in parts[0];
      SplitAfterPiece(parts[0], Join(rest, sep), sep);
      assert [parts[0]] + rest == parts;
    }
  }

  /** Index just past the last character of `s` that is not in `cs`. */
  function RStripEnd(s: string, cs: set<char>): (hi: nat)
    ensures hi <= |s|
    ensures forall i :: hi <= i < |s| ==> s[i] in cs
    ensures hi > 0 ==> s[hi - 1] !in cs
  {
    if |s| == 0 then 0
    else if s[|s| - 1] in cs then RStripEnd(s[..|s| - 1], cs)
    else |s|
  }

  /** Python's `s.rstrip(chars)`: removes every trailing character in `cs`,
      not just one. */
  function RStrip(s: string, cs: set<char>): (r: string)
    ensures r <= s
    ensures |r| == 0 || r[|r| - 1] !in cs
    ensures forall i :: |r| <= i < |s| ==> s[i] in cs
  {
    s[..RStripEnd(s, cs)]
  }

  /** Index of the first character of `s` that is not in `cs`, or `|s|`. */
  function LStripStart(s: string, cs: set<char>): (lo: nat)
    ensures lo <= |s|
    ensures forall i :: 0 <= i < lo ==> s[i] in cs
    ensures lo < |s| ==> s[lo] !in cs
  {
    if |s| == 0 then 0
    else if s[0] in cs then 1 + LStripStart(s[1..], cs)
    else 0
  }

  /** Python's `s.lstrip(chars)`. */
  function LStrip(s: string, cs: set<char>): (r: string)
    ensures |r| <= |s| && r == s[|s| - |r|..]
    ensures |r| == 0 || r[0] !in cs
    ensures forall i :: 0 <= i < |s| - |r| ==> s[i] in cs
  {
    s[LStripStart(s, cs)..]
  }

  /** Python's `s.strip(chars)`: both ends trimmed. */
  function Strip(s: string, cs: set<char>): (r: string)
    ensures |r| <= |s|
    ensures |r| == 0 || (r[0] !in cs && r[|r| - 1] !in cs)
  {
    LStrip(RStrip(s, cs), cs)
  }

  /** The stripped string is a slice `s[lo..hi]` of the original, and every
      character cut from either end is in `cs`. */
  lemma StripIsSlice(s: string, cs: set<char>)
    ensures var hi := |RStrip(s, cs)|;
            var lo := hi - |Strip(s, cs)|;
            && 0 <= lo <= hi <= |s|
            && Strip(s, cs) == s[lo..hi]
            && (forall i :: 0 <= i < lo ==> s[i] in cs)
            && (forall i :: hi <= i < |s| ==> s[i] in cs)
  {
  }

  /** Stripping trailing characters a second time changes nothing. */
  lemma RStripIdempotent(s: string, cs: set<char>)
    ensures RStrip(RStrip(s, cs), cs) == RStrip(s, cs)
  {
  }

  /** Stripping both ends a second time changes nothing. */
  lemma StripIdempotent(s: string, cs: set<char>)
    ensures Strip(Strip(s, cs), cs) == Strip(s, cs)
  {
  }

  /** The characters Python's `str.isspace()` accepts, which a bare `strip()` removes. */
  const Whitespace: set<char> := {
    '\t', '\n', '\U{B}', '\U{C}', '\r', '\U{1C}', '\U{1D}', '\U{1E}', '\U{1F}', ' ',
    '\U{85}', '\U{A0}', '\U{1680}',
    '\U{2000}', '\U{2001}', '\U{2002}', '\U{2003}', '\U{2004}', '\U{2005}',
    '\U{2006}', '\U{2007}', '\U{2008}', '\U{2009}', '\U{200A}',
    '\U{2028}', '\U{2029}', '\U{202F}', '\U{205F}', '\U{3000}'
  }

  /** POSIX `os.path.join(a, b)`: an absolute `b` replaces `a`; otherwise a
      `/` is inserted unless `a` is empty or already ends in one. */
  function PathJoin(a: string, b: string): (p: string)
    ensures |b| <= |p| && p[|p| - |b|..] == b
    ensures |b| > 0 && b[0] == '/' ==> p == b
    ensures (|b| == 0 || b[0] != '/') && (|a| == 0 || a[|a| - 1] == '/') ==> p == a + b
    ensures (|b| == 0 || b[0] != '/') && |a| > 0 && a[|a| - 1] != '/' ==> p == a + "/" + b
  {
    if |b| > 0 && b[0] == '/' then b
    else if |a| == 0 || a[|a| - 1] == '/' then a + b
    else a + "/" + b
  }
}
