/**
 * Request paths as the details service sees them: Ruby's `String#split('/')`
 * and the last element of its result (`pathParts[-1]`).
 */
module Paths {
  import opened Wrappers

  /** Position of the last `c` in `s`, or -1 when there is none. */
  function LastIndexOf(s: string, c: char): (r: int)
    ensures -1 <= r < |s|
    ensures r >= 0 ==> s[r] == c
    ensures forall k :: r < k < |s| ==> s[k] != c
  {
    if s == [] then -1
    else if s[|s| - 1] == c then |s| - 1
    else LastIndexOf(s[..|s| - 1], c)
  }

  /** Every piece between separators, empty ones included (so never empty itself). */
  function Split(s: string, sep: char): (parts: seq<string>)
    ensures |parts| >= 1
    decreases |s|
  {
    var i := LastIndexOf(s, sep);
    if i < 0 then [s] else Split(s[..i], sep) + [s[i + 1..]]
  }

  /** Puts the pieces back together with `sep` between them. */
  function Join(parts: seq<string>, sep: char): string
    requires |parts| >= 1
  {
    if |parts| == 1 then parts[0] else Join(parts[..|parts| - 1], sep) + [sep] + parts[|parts| - 1]
  }

  /** Splitting loses nothing, and no piece holds a separator. */
  lemma {:induction false} SplitJoin(s: string, sep: char)
    ensures Join(Split(s, sep), sep) == s
    ensures forall k :: 0 <= k < |Split(s, sep)| ==> sep !in Split(s, sep)[k]
    decreases |s|
  {
    var i := LastIndexOf(s, sep);
    if i >= 0 {
      var init := Split(s[..i], sep);
      SplitJoin(s[..i], sep);
      var parts := Split(s, sep);
      assert parts == init + [s[i + 1..]];
      assert parts[..|parts| - 1] == init;
      assert s == s[..i] + [sep] + s[i + 1..];
      var last := s[i + 1..];
      assert sep !in last by {
        forall k | 0 <= k < |last| ensures last[k] != sep {
          assert last[k] == s[i + 1 + k];
        }
      }
    } else {
      assert forall k :: 0 <= k < |s| ==> s[k] != sep;
    }
  }

  /** Ruby's split drops the empty strings at the end of the result. */
  function DropTrailingEmpty(parts: seq<string>): (r: seq<string>)
    ensures |r| <= |parts| && r == parts[..|r|]
    ensures r != [] ==> r[|r| - 1] != ""
    ensures forall k :: |r| <= k < |parts| ==> parts[k] == ""
  {
    if parts == [] then []
    else if parts[|parts| - 1] == "" then DropTrailingEmpty(parts[..|parts| - 1])
    else parts
  }

  /** Ruby `path.split('/')`. */
  function SplitPath(path: string): seq<string>
  {
    DropTrailingEmpty(Split(path, '/'))
  }

  /** Ruby `path.split('/')[-1]`: None where Ruby yields nil. */
  function LastSegment(path: string): (r: Option<string>)
    ensures r.Some? ==> r.value != "" && '/' !in r.value
  {
    var parts := SplitPath(path);
    SplitJoin(path, '/');
    if parts == [] then None else Some(parts[|parts| - 1])
  }

  /** Text after a separator that holds no separator is the last piece. */
  lemma SplitAfterSeparator(prefix: string, seg: string, sep: char)
    requires sep !in seg
    ensures Split(prefix + [sep] + seg, sep) == Split(prefix, sep) + [seg]
  {
    var s := prefix + [sep] + seg;
    var i := LastIndexOf(s, sep);
    assert s[|prefix|] == sep;
    forall k | |prefix| < k < |s| ensures s[k] != sep {
      assert s[k] == seg[k - |prefix| - 1];
    }
    assert i == |prefix|;
    assert s[..i] == prefix;
    assert s[i + 1..] == seg;
  }

  /** The segment after the last slash is what `pathParts[-1]` yields. */
  lemma LastSegmentAfterSlash(prefix: string, seg: string)
    requires seg != "" && '/' !in seg
    ensures LastSegment(prefix + "/" + seg) == Some(seg)
  {
    SplitAfterSeparator(prefix, seg, '/');
    var r := Split(prefix + "/" + seg, '/');
    assert r[|r| - 1] == seg;
  }

  /** Trailing slashes do not change `pathParts[-1]`. */
  lemma LastSegmentIgnoresTrailingSlash(path: string)
    ensures LastSegment(path + "/") == LastSegment(path)
  {
    SplitAfterSeparator(path, "", '/');
    assert path + "/" == path + ['/'] + "";
    var p := Split(path, '/');
    var q := p + [""];
    assert q[..|q| - 1] == p;
    assert DropTrailingEmpty(q) == DropTrailingEmpty(p);
    assert SplitPath(path + "/") == SplitPath(path);
  }
}
