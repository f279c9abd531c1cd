/** String helpers shared by the client, the server and the test harness:
    prefix and suffix tests, ASCII lower-casing, Python's `str.split(sep)`
    for a one-character separator and `os.path.splitext` for a bare file name. */
module Text {
  import opened Wrappers

  predicate StartsWith(s: string, prefix: string) {
    |prefix| <= |s| && s[..|prefix|] == prefix
  }

  predicate EndsWith(s: string, suffix: string) {
    |suffix| <= |s| && s[|s| - |suffix|..] == suffix
  }

  /** Python's `t in s` for two strings: `t` occurs somewhere in `s`. */
  predicate Contains(s: string, t: string)
    decreases |s|
  {
    StartsWith(s, t) || (|s| > 0 && Contains(s[1..], t))
  }

  /** `str.lower()` restricted to ASCII letters; every other character is kept. */
  function LowerChar(c: char): char {
    if 'A' <= c <= 'Z' then (c as int + 32) as char else c
  }

  function Lower(s: string): (r: string)
    ensures |r| == |s|
    ensures forall i :: 0 <= i < |r| ==> !('A' <= r[i] <= 'Z')
    ensures forall i :: 0 <= i < |s| && !('A' <= s[i] <= 'Z') ==> r[i] == s[i]
    ensures forall i :: 0 <= i < |s| && 'A' <= s[i] <= 'Z' ==> r[i] as int == s[i] as int + 32
  {
    seq(|s|, i requires 0 <= i < |s| => LowerChar(s[i]))
  }

  /** Lower-casing twice is lower-casing once. */
  lemma LowerIdempotent(s: string)
    ensures Lower(Lower(s)) == Lower(s)
  {
    var r := Lower(s);
    assert forall i :: 0 <= i < |r| ==> Lower(r)[i] == r[i];
  }

  /** Position of the first occurrence of `c` in `s`. */
  function IndexOf(s: string, c: char): (r: Option<nat>)
    ensures r.None? <==> c !in s
    ensures r.Some? ==> r.value < |s| && s[r.value] == c && c !in s[..r.value]
  {
    if |s| == 0 then None
    else if s[0] == c then Some(0)
    else
      match IndexOf(s[1..], c)
      case None => None
      case Some(i) =>
        assert s[..i + 1] == [s[0]] + s[1..][..i];
        Some(i + 1)
  }

  /** Position of the last occurrence of `c` in `s`. */
  function LastIndexOf(s: string, c: char): (r: Option<nat>)
    ensures r.None? <==> c !in s
    ensures r.Some? ==> r.value < |s| && s[r.value] == c && c !in s[r.value + 1..]
  {
    if |s| == 0 then None
    else if s[|s| - 1] == c then Some(|s| - 1)
    else
      match LastIndexOf(s[..|s| - 1], c)
      case None =>
        assert s == s[..|s| - 1] + [s[|s| - 1]];
        None
      case Some(i) =>
        assert s[i + 1..] == s[..|s| - 1][i + 1..] + [s[|s| - 1]];
        Some(i)
  }

  /** Python's `s.split(sep)` for a one-character separator. */
  function Split(s: string, sep: char): (parts: seq<string>)
    ensures |parts| >= 1
    ensures forall k :: 0 <= k < |parts| ==> sep !in parts[k]
    ensures sep !in s ==> parts == [s]
    ensures sep in s ==> |parts| >= 2
    decreases |s|
  {
    match IndexOf(s, sep)
    case None => [s]
    case Some(i) => [s[..i]] + Split(s[i + 1..], sep)
  }

  /** Python's `sep.join(parts)`. */
  function Join(parts: seq<string>, sep: char): string {
    if parts == [] then ""
    else if |parts| == 1 then parts[0]
    else parts[0] + [sep] + Join(parts[1..], sep)
  }

  /** Joining the parts of a split gives back the string. */
  lemma {:induction false} JoinSplit(s: string, sep: char)
    ensures Join(Split(s, sep), sep) == s
    decreases |s|
  {
    match IndexOf(s, sep)
    case None =>
    case Some(i) =>
      JoinSplit(s[i + 1..], sep);
      assert s == s[..i] + [sep] + s[i + 1..];
  }

  /** Splitting a join of separator-free parts gives back the parts. */
  lemma {:induction false} SplitJoin(parts: seq<string>, sep: char)
    requires |parts| >= 1
    requires forall k :: 0 <= k < |parts| ==> sep !in parts[k]
    ensures Split(Join(parts, sep), sep) == parts
    decreases |parts|
  {
    if |parts| > 1 {
      var s := Join(parts, sep);
      var head := parts[0];
      assert s == head + [sep] + Join(parts[1..], sep);
      assert s[|head|] == sep && s[..|head|] == head;
      assert IndexOf(s, sep) == Some(|head|);
      assert s[|head| + 1..] == Join(parts[1..], sep);
      SplitJoin(parts[1..], sep);
    }
  }

  /** The second part of a split is the text between the first separator and
      the next one, or the end of the string when there is no next one. */
  lemma SecondPart(s: string, sep: char)
    requires sep in s
    ensures |Split(s, sep)| >= 2
    ensures var i := IndexOf(s, sep).value; var r := Split(s, sep)[1];
      sep !in s[..i] && sep !in r && StartsWith(s[i + 1..], r) &&
      (i + 1 + |r| == |s| || s[i + 1 + |r|] == sep)
  {
  }

  /** A string starts with its text up to a separator, the separator and any
      prefix of what follows. */
  lemma PrefixAround(s: string, i: nat, sep: char, t: string)
    requires i < |s| && s[i] == sep && StartsWith(s[i + 1..], t)
    ensures StartsWith(s, s[..i] + [sep] + t)
  {
  }

  /** A string with a separator starts with its first two parts, joined by it,
      and the second part ends at the next separator or at the end. */
  lemma SplitFirstTwo(s: string, sep: char)
    requires sep in s
    ensures |Split(s, sep)| >= 2
    ensures StartsWith(s, Split(s, sep)[0] + [sep] + Split(s, sep)[1])
    ensures var n := |Split(s, sep)[0]| + 1 + |Split(s, sep)[1]|; n == |s| || s[n] == sep
  {
    SecondPart(s, sep);
    var i := IndexOf(s, sep).value;
    assert Split(s, sep)[0] == s[..i];
    PrefixAround(s, i, sep, Split(s, sep)[1]);
  }

  predicate AllDots(s: string) {
    forall k :: 0 <= k < |s| ==> s[k] == '.'
  }

  /** `os.path.splitext(name)` for a name without a directory part: the
      extension starts at the last dot, unless only dots come before it. */
  function SplitExt(name: string): (r: (string, string))
    ensures r.0 + r.1 == name
    ensures r.1 == [] || (r.1[0] == '.' && '.' !in r.1[1..])
    ensures r.1 != [] ==> !AllDots(r.0)
    ensures r.1 == [] <==> forall k :: 0 <= k < |name| && name[k] != '.' ==> '.' !in name[k + 1..]
  {
    match LastIndexOf(name, '.')
    case None => (name, "")
    case Some(d) =>
      if AllDots(name[..d]) then
        assert forall k :: 0 <= k < |name| && name[k] != '.' ==> '.' !in name[k + 1..] by {
          forall k | 0 <= k < |name| && name[k] != '.' ensures '.' !in name[k + 1..] {
            assert name[k + 1..] == name[d + 1..][k - d..];
          }
        }
        (name, "")
      else
        var k :| 0 <= k < d && name[..d][k] != '.';
        assert name[k] != '.' && name[k + 1..][d - k - 1] == '.';
        assert name[..d] + name[d..] == name;
        (name[..d], name[d..])
  }
}
