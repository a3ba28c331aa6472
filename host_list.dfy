/** Parsing of the comma-separated `allowed_hosts` and `cors_origins` settings
    (backend/main.py, lines 51-52): `[x.strip() for x in s.split(",")]`. */
module HostList {

  const SEPARATOR := ','
  /** The default value of both settings. */
  const DEFAULT_SETTING := "*"

  /** The characters for which Python's `str.isspace` holds, which `strip()`
      removes. */
  predicate IsSpace(c: char) {
    var n := c as int;
    (0x09 <= n <= 0x0D) || (0x1C <= n <= 0x20) || n == 0x85 || n == 0xA0
    || n == 0x1680 || (0x2000 <= n <= 0x200A) || n == 0x2028 || n == 0x2029
    || n == 0x202F || n == 0x205F || n == 0x3000
  }

  /** Number of occurrences of `c` in `s`. */
  function Occurrences(s: string, c: char): nat {
    multiset(s)[c]
  }

  /** Index of the first occurrence of `c` in `s`. */
  function IndexOf(s: string, c: char): (i: nat)
    requires c in s
    ensures i < |s| && s[i] == c && c !in s[..i]
  {
    if s[0] == c then 0 else IndexOf(s[1..], c) + 1
  }

  /** The pieces put back together with the separator between them, the
      inverse of `Split`. */
  function Join(parts: seq<string>, sep: char): string {
    if parts == [] then ""
    else if |parts| == 1 then parts[0]
    else parts[0] + [sep] + Join(parts[1..], sep)
  }

  /** `s.split(sep)`: the pieces between separators, left to right. The three
      clauses determine the pieces: there is one more piece than separators, no
      piece holds a separator, and joining them gives back the input. */
  function Split(s: string, sep: char): (parts: seq<string>)
    ensures |parts| == Occurrences(s, sep) + 1
    ensures forall i :: 0 <= i < |parts| ==> sep !in parts[i]
    ensures Join(parts, sep) == s
    decreases |s|
  {
    if sep !in s then [s]
    else
      var i := IndexOf(s, sep);
      var rest := Split(s[i + 1..], sep);
      assert s == s[..i] + [s[i]] + s[i + 1..];
      assert multiset(s) == multiset(s[..i]) + multiset([s[i]]) + multiset(s[i + 1..]);
      assert ([s[..i]] + rest)[1..] == rest;
      [s[..i]] + rest
  }

  /** `s.lstrip()`: what remains is a suffix of `s` that does not start with
      whitespace, and everything removed was whitespace. */
  function TrimStart(s: string): (r: string)
    ensures |r| <= |s| && r == s[|s| - |r|..]
    ensures r != [] ==> !IsSpace(r[0])
    ensures forall i :: 0 <= i < |s| - |r| ==> IsSpace(s[i])
  {
    if s != [] && IsSpace(s[0]) then TrimStart(s[1..]) else s
  }

  /** `s.rstrip()`: what remains is a prefix of `s` that does not end with
      whitespace, and everything removed was whitespace. */
  function TrimEnd(s: string): (r: string)
    ensures |r| <= |s| && r == s[..|r|]
    ensures r != [] ==> !IsSpace(r[|r| - 1])
    ensures forall i :: |r| <= i < |s| ==> IsSpace(s[i])
  {
    if s != [] && IsSpace(s[|s| - 1]) then TrimEnd(s[..|s| - 1]) else s
  }

  /** Number of whitespace characters at the start of `s`. */
  function LeadingSpaces(s: string): (n: nat)
    ensures n <= |s| && (n < |s| ==> !IsSpace(s[n]))
    ensures forall i :: 0 <= i < n ==> IsSpace(s[i])
  {
    |s| - |TrimStart(s)|
  }

  /** `s.strip()`: the part of `s` that starts after its leading whitespace,
      does not end with whitespace, and is followed only by whitespace. */
  function Strip(s: string): (r: string)
    ensures LeadingSpaces(s) + |r| <= |s|
    ensures r == s[LeadingSpaces(s)..LeadingSpaces(s) + |r|]
    ensures forall i :: LeadingSpaces(s) + |r| <= i < |s| ==> IsSpace(s[i])
    ensures r != [] ==> !IsSpace(r[0]) && !IsSpace(r[|r| - 1])
  {
    TrimEnd(TrimStart(s))
  }

  /** The list comprehension of lines 51-52. */
  function ParseList(setting: string): (entries: seq<string>)
    ensures |entries| == Occurrences(setting, SEPARATOR) + 1
    ensures forall i :: 0 <= i < |entries| ==>
      entries[i] == Strip(Split(setting, SEPARATOR)[i])
  {
    var parts := Split(setting, SEPARATOR);
    seq(|parts|, i requires 0 <= i < |parts| => Strip(parts[i]))
  }

  /** Stripping a piece keeps it free of separators. */
  lemma StripKeepsSeparatorFree(part: string, sep: char)
    requires sep !in part
    ensures sep !in Strip(part)
  {
    var entry := Strip(part);
    var lo := LeadingSpaces(part);
    forall k | 0 <= k < |entry| ensures entry[k] != sep {
      assert entry[k] == part[lo + k];
    }
  }

  /** No entry holds a comma or starts or ends with whitespace. */
  lemma EntriesAreClean(setting: string, i: nat)
    requires i < |ParseList(setting)|
    ensures SEPARATOR !in ParseList(setting)[i]
    ensures ParseList(setting)[i] != [] ==>
      !IsSpace(ParseList(setting)[i][0]) && !IsSpace(ParseList(setting)[i][|ParseList(setting)[i]| - 1])
  {
    StripKeepsSeparatorFree(Split(setting, SEPARATOR)[i], SEPARATOR);
  }

  /** The default setting `"*"` parses to the one-entry list `["*"]`. */
  lemma DefaultSettingParses()
    ensures ParseList(DEFAULT_SETTING) == ["*"]
  {
    assert DEFAULT_SETTING[0] == '*';
    assert SEPARATOR !in DEFAULT_SETTING;
    assert Split(DEFAULT_SETTING, SEPARATOR) == [DEFAULT_SETTING];
    assert !IsSpace('*');
    assert TrimStart(DEFAULT_SETTING) == DEFAULT_SETTING;
    assert TrimEnd(DEFAULT_SETTING) == DEFAULT_SETTING;
    assert Strip(DEFAULT_SETTING) == DEFAULT_SETTING;
  }

  /** A comma-free, already-stripped entry is left as it is by `strip()`. */
  predicate CleanEntry(e: string) {
    SEPARATOR !in e && (e != [] ==> !IsSpace(e[0]) && !IsSpace(e[|e| - 1]))
  }

  /** Splitting undoes joining: pieces without separators, put together with
      the separator, split back into the same pieces. */
  lemma {:induction false} SplitJoin(parts: seq<string>, sep: char)
    requires parts != []
    requires forall i :: 0 <= i < |parts| ==> sep !in parts[i]
    ensures Split(Join(parts, sep), sep) == parts
    decreases |parts|
  {
    if |parts| > 1 {
      var s := Join(parts, sep);
      var rest := parts[1..];
      var i := |parts[0]|;
      JoinHead(parts, sep);
      IndexOfFirst(s, sep, i);
      SplitJoin(rest, sep);
      assert Split(s, sep) == [parts[0]] + Split(Join(rest, sep), sep) by {
        assert sep in s;
      }
      assert parts == [parts[0]] + rest;
    }
  }

  /** Where the first piece ends in a joined list. */
  lemma JoinHead(parts: seq<string>, sep: char)
    requires |parts| > 1 && sep !in parts[0]
    ensures |parts[0]| < |Join(parts, sep)|
    ensures Join(parts, sep)[|parts[0]|] == sep
    ensures Join(parts, sep)[..|parts[0]|] == parts[0]
    ensures Join(parts, sep)[|parts[0]| + 1..] == Join(parts[1..], sep)
  {
    var s := Join(parts, sep);
    assert s == parts[0] + [sep] + Join(parts[1..], sep);
  }

  /** The first separator of a string is at `i` when the part before `i` has none. */
  lemma {:induction false} IndexOfFirst(s: string, c: char, i: nat)
    requires i < |s| && s[i] == c && c !in s[..i]
    ensures IndexOf(s, c) == i
    decreases i
  {
    if i > 0 {
      assert s[0] != c by { assert s[0] == s[..i][0]; }
      assert s[1..][..i - 1] == s[..i][1..];
      IndexOfFirst(s[1..], c, i - 1);
    }
  }

  lemma StripClean(e: string)
    requires CleanEntry(e)
    ensures Strip(e) == e
  {
    assert TrimStart(e) == e;
    assert TrimEnd(e) == e;
  }

  /** Parsing is the inverse of writing the list out with commas: clean entries
      joined by `","` parse back to the same entries, in the same order. */
  lemma ParseJoinRoundTrip(entries: seq<string>)
    requires entries != []
    requires forall i :: 0 <= i < |entries| ==> CleanEntry(entries[i])
    ensures ParseList(Join(entries, SEPARATOR)) == entries
  {
    SplitJoin(entries, SEPARATOR);
    var r := ParseList(Join(entries, SEPARATOR));
    forall i | 0 <= i < |entries| ensures r[i] == entries[i] {
      StripClean(entries[i]);
    }
  }
}
