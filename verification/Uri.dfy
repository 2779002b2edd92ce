/** Paths ("URIs"): `/`-separated strings, held together with their segments. */
module Uri {
  import opened Common

  const DELIM := '/'
  const MAX_PATH_LEN := 255

  datatype Result<+T> = Ok(value: T) | RangeError | OutOfBounds

  /** Number of delimiters in a path; the segment buffer has room for one more than that. */
  function Delims(s: string): nat {
    if s == "" then 0 else (if s[0] == DELIM then 1 else 0) + Delims(s[1..])
  }

  /** The pieces between delimiters; "" has one empty piece. */
  function Pieces(s: string): (r: seq<string>)
    ensures |r| == Delims(s) + 1
  {
    if s == "" then [""] else Glue(s[0], Pieces(s[1..]))
  }

  /** One more character in front: a delimiter opens a piece, any other character extends the first one. */
  function Glue(c: char, r: seq<string>): (t: seq<string>)
    requires r != []
    ensures |t| == |r| + (if c == DELIM then 1 else 0)
  {
    if c == DELIM then [""] + r else [[c] + r[0]] + r[1..]
  }

  /** The segments of a path. The empty path has none. */
  function Split(s: string): seq<string> {
    if s == "" then [] else Pieces(s)
  }

  function Join(segs: seq<string>): string {
    if segs == [] then "" else
    if |segs| == 1 then segs[0] else segs[0] + [DELIM] + Join(segs[1..])
  }

  ghost predicate Plain(s: string) { DELIM !in s }

  ghost predicate AllPlain(segs: seq<string>) {
    forall i :: 0 <= i < |segs| ==> Plain(segs[i])
  }

  // ---------------------------------------------------------------- split and join

  lemma JoinOfGlue(c: char, r: seq<string>)
    requires r != []
    ensures Join(Glue(c, r)) == [c] + Join(r)
  {
    if c == DELIM {
      assert Glue(c, r)[1..] == r;
    } else if |r| > 1 {
      assert Glue(c, r)[1..] == r[1..];
    }
  }

  lemma {:induction false} PiecesRebuild(s: string)
    ensures Join(Pieces(s)) == s && AllPlain(Pieces(s))
  {
    if s != "" {
      PiecesRebuild(s[1..]);
      JoinOfGlue(s[0], Pieces(s[1..]));
      assert s == [s[0]] + s[1..];
    }
  }

  /** Joining the segments gives the path back, and no segment holds a delimiter. */
  lemma SplitThenJoin(s: string)
    ensures Join(Split(s)) == s && AllPlain(Split(s))
  {
    PiecesRebuild(s);
  }

  lemma {:induction false} PiecesOfPlain(s: string)
    requires Plain(s)
    ensures Pieces(s) == [s]
  {
    if s != "" {
      PiecesOfPlain(s[1..]);
      assert s == [s[0]] + s[1..];
    }
  }

  lemma GlueOfSum(c: char, r: seq<string>, q: seq<string>)
    requires r != []
    ensures Glue(c, r + q) == Glue(c, r) + q
  {
    assert (r + q)[0] == r[0] && (r + q)[1..] == r[1..] + q;
  }

  lemma {:induction false} PiecesOfSum(a: string, b: string)
    ensures Pieces(a + [DELIM] + b) == Pieces(a) + Pieces(b)
  {
    var s := a + [DELIM] + b;
    if a == "" {
      assert s[0] == DELIM && s[1..] == b;
    } else {
      PiecesOfSum(a[1..], b);
      assert s[0] == a[0] && s[1..] == a[1..] + [DELIM] + b;
      GlueOfSum(a[0], Pieces(a[1..]), Pieces(b));
    }
  }

  lemma {:induction false} PiecesOfJoin(segs: seq<string>)
    requires segs != [] && AllPlain(segs)
    ensures Pieces(Join(segs)) == segs
  {
    PiecesOfPlain(segs[0]);
    if |segs| == 1 {
      assert segs == [segs[0]];
    } else {
      PiecesOfJoin(segs[1..]);
      PiecesOfSum(segs[0], Join(segs[1..]));
      assert segs == [segs[0]] + segs[1..];
    }
  }

  /** The other direction: every list of plain segments, except one empty segment, is what its join splits into. */
  lemma JoinThenSplit(segs: seq<string>)
    requires AllPlain(segs)
    ensures Split(Join(segs)) == segs <==> segs != [""]
  {
    if segs != [] && segs != [""] {
      PiecesOfJoin(segs);
      assert |segs| > 1 ==> |Join(segs)| >= 1;
      assert |segs| == 1 ==> segs == [segs[0]];
    }
  }

  lemma {:induction false} JoinOfSum(a: seq<string>, b: seq<string>)
    requires a != [] && b != []
    ensures Join(a + b) == Join(a) + [DELIM] + Join(b)
  {
    assert (a + b)[1..] == a[1..] + b;
    if |a| == 1 {
      assert a + b == [a[0]] + b;
    } else {
      JoinOfSum(a[1..], b);
    }
  }

  lemma JoinOfOne(s: string)
    ensures Join([s]) == s
  {}

  /** ZstURI::init: fill the fixed segment buffer in one pass over the characters. */
  method Init(path: string) returns (components: array<string>, count: nat)
    requires Delims(path) < 255
    ensures components.Length == 255 && count <= 255
    ensures components[..count] == Split(path)
  {
    components := new string[MAX_PATH_LEN](_ => "");
    count := 0;
    if path == "" { return; }
    var len, wordOffset := 0, 0;
    assert components[..0] == [];
    ParsedStart(path);
    for i := 0 to |path|
      invariant wordOffset + len == i && count <= MAX_PATH_LEN
      invariant fresh(components) && components.Length == MAX_PATH_LEN
      invariant count + Delims(path[i..]) < MAX_PATH_LEN
      invariant Parsed(path, components[..count], wordOffset, i)
    {
      ghost var before := components[..count];
      ParsedStep(path, before, wordOffset, i);
      assert path[i..][1..] == path[i + 1..];
      if path[i] == DELIM {
        components[count] := path[wordOffset..wordOffset + len];
        assert components[..count + 1] == before + [path[wordOffset..i]];
        wordOffset := wordOffset + len + 1;
        count := count + 1;
        len := 0;
      } else {
        len := len + 1;
      }
    }
    ghost var before := components[..count];
    components[count] := path[wordOffset..wordOffset + len];
    assert components[..count + 1] == before + [path[wordOffset..|path|]];
    count := count + 1;
  }

  /** The pieces of `s` when the first one has already collected `word`. */
  ghost function Scan(word: string, s: string): seq<string>
    decreases |s|
  {
    if s == "" then [word] else
    if s[0] == DELIM then [word] + Scan("", s[1..]) else Scan(word + [s[0]], s[1..])
  }

  lemma {:induction false} ScanCollects(word: string, s: string)
    ensures Scan(word, s) == [word + Pieces(s)[0]] + Pieces(s)[1..]
    decreases |s|
  {
    if s == "" {
      assert word + "" == word;
    } else if s[0] == DELIM {
      ScanCollects("", s[1..]);
      var r := Pieces(s[1..]);
      assert "" + r[0] == r[0] && r == [r[0]] + r[1..];
      assert word + "" == word;
    } else {
      ScanCollects(word + [s[0]], s[1..]);
      var r := Pieces(s[1..]);
      assert word + [s[0]] + r[0] == word + ([s[0]] + r[0]);
    }
  }

  /** After reading `i` characters: finished pieces, then a piece that began at `offset`. */
  ghost predicate Parsed(path: string, done: seq<string>, offset: nat, i: nat) {
    offset <= i <= |path| && Pieces(path) == done + Scan(path[offset..i], path[i..])
  }

  lemma ParsedStart(path: string)
    ensures Parsed(path, [], 0, 0)
  {
    ScanCollects("", path);
    var r := Pieces(path);
    assert path[0..] == path && path[0..0] == "";
    assert "" + r[0] == r[0] && r == [r[0]] + r[1..];
  }

  lemma ParsedStep(path: string, done: seq<string>, offset: nat, i: nat)
    requires i < |path| && Parsed(path, done, offset, i)
    ensures path[i] == DELIM ==> Parsed(path, done + [path[offset..i]], i + 1, i + 1)
    ensures path[i] != DELIM ==> Parsed(path, done, offset, i + 1)
  {
    var word, rest := path[offset..i], path[i + 1..];
    assert path[i..][1..] == rest;
    if path[i] == DELIM {
      assert path[i + 1..i + 1] == "";
      assert done + ([word] + Scan("", rest)) == done + [word] + Scan("", rest);
    } else {
      assert path[offset..i + 1] == word + [path[i]];
    }
  }

  // ---------------------------------------------------------------- range, +, parent, last

  /** The guard of `range`: an unsigned difference compared with the segment count. */
  predicate RangeThrows(n: nat, start: nat, end: nat) {
    (end - start) % SIZE_T > n
  }

  ghost function Offset(segs: seq<string>, k: nat): nat
    requires k <= |segs|
  {
    if k == 0 then 0 else Offset(segs, k - 1) + |segs[k - 1]| + 1
  }

  lemma {:induction false} OffsetIsJoinLength(segs: seq<string>, k: nat)
    requires 0 < k <= |segs|
    ensures Offset(segs, k) == |Join(segs[..k])| + 1
  {
    if k == 1 {
      assert segs[..1] == [segs[0]];
      assert Offset(segs, 1) == Offset(segs, 0) + |segs[0]| + 1;
    } else {
      OffsetIsJoinLength(segs, k - 1);
      JoinOfSum(segs[..k - 1], [segs[k - 1]]);
      assert segs[..k] == segs[..k - 1] + [segs[k - 1]];
    }
  }

  lemma SliceOfJoin(segs: seq<string>, start: nat, end: nat)
    requires start <= end < |segs|
    ensures Offset(segs, start) + |Join(segs[start..end + 1])| <= |Join(segs)|
    ensures Join(segs)[Offset(segs, start)..][..|Join(segs[start..end + 1])|] == Join(segs[start..end + 1])
  {
    var mid, rest := segs[start..end + 1], segs[start..];
    assert Join(rest)[..|Join(mid)|] == Join(mid) by {
      if end + 1 < |segs| {
        JoinOfSum(mid, segs[end + 1..]);
        assert rest == mid + segs[end + 1..];
      } else {
        assert rest == mid;
      }
    }
    if start > 0 {
      OffsetIsJoinLength(segs, start);
      JoinOfSum(segs[..start], rest);
      assert segs == segs[..start] + rest;
      assert Join(segs)[Offset(segs, start)..] == Join(rest);
    } else {
      assert rest == segs;
    }
  }

  /** Exactly the index pairs that pass the guard and still lead past the segments: an end that is too large by no more
      than the guard allows, or a start so large that the difference wraps round to a small one. */
  lemma GuardTooWeak(n: nat, start: nat, end: nat)
    requires n < SIZE_T && start < SIZE_T && end < SIZE_T
    ensures !RangeThrows(n, start, end) && !(start <= end < n) <==>
              (start <= end && n <= end <= start + n) || (end < start && SIZE_T <= start - end + n)
  {
    if end < start { assert (end - start) % SIZE_T == end - start + SIZE_T; }
  }

  /** One segment, indices 0 and 1: the guard lets them through. */
  lemma GuardLetsThrough()
    ensures |Split("a")| == 1 && !RangeThrows(1, 0, 1)
  {
    assert "a"[1..] == "";
  }

  /** ZstURI::range: sum segment lengths, then cut the characters out of the path. Reading a segment that does not exist
      is reported as OutOfBounds; the code does not notice it. */
  method Range(path: string, start: nat, end: nat) returns (r: Result<string>)
    requires start < SIZE_T && end < SIZE_T && Delims(path) < MAX_PATH_LEN
    ensures r.RangeError? <==> RangeThrows(|Split(path)|, start, end)
    ensures r.Ok? <==> start <= end < |Split(path)|
    ensures r.Ok? ==> r.value == Join(Split(path)[start..end + 1])
  {
    hide Join, Pieces, Glue;
    var segs := Split(path);
    assert |segs| <= MAX_PATH_LEN;
    GuardTooWeak(|segs|, start, end);
    if RangeThrows(|segs|, start, end) { return RangeError; }
    var startPosition := 0;
    for index := 0 to start
      invariant index <= |segs| && startPosition == Offset(segs, index)
    {
      if index >= |segs| { return OutOfBounds; }
      startPosition := startPosition + |segs[index]| + 1;
    }
    var length := 0;
    for index := start to end + 1
      invariant index <= |segs|
      invariant index > start ==> length + (index - 1 - start) == |Join(segs[start..index])|
      invariant index == start ==> length == 0
    {
      if index >= |segs| { return OutOfBounds; }
      if index > start {
        JoinOfSum(segs[start..index], [segs[index]]);
        JoinOfOne(segs[index]);
        assert segs[start..index + 1] == segs[start..index] + [segs[index]];
      } else {
        assert segs[start..start + 1] == [segs[start]];
        JoinOfOne(segs[start]);
      }
      length := length + |segs[index]|;
    }
    length := length + (end - start);
    SplitThenJoin(path);
    SliceOfJoin(segs, start, end);
    r := Ok(path[startPosition..][..length]);
  }

  function Add(a: string, b: string): string { a + [DELIM] + b }

  function Parent(path: string): string {
    var segs := Split(path);
    if |segs| < 2 then "" else Join(segs[..|segs| - 1])
  }

  function Last(path: string): Result<string> {
    var segs := Split(path);
    if segs == [] then RangeError else Ok(segs[|segs| - 1])
  }

  /** `+` concatenates segments exactly when neither side is empty: an empty side leaves an empty segment behind. */
  lemma AddConcatenates(a: string, b: string)
    ensures Split(Add(a, b)) == Split(a) + Split(b) <==> a != "" && b != ""
    ensures a == "" ==> Split(Add(a, b)) == [""] + Pieces(b)
    ensures b == "" ==> Split(Add(a, b)) == Pieces(a) + [""]
  {
    PiecesOfSum(a, b);
    assert |Split(Add(a, b))| == |Pieces(a)| + |Pieces(b)|;
  }

  lemma AddAssociates(a: string, b: string, c: string)
    ensures Add(Add(a, b), c) == Add(a, Add(b, c))
  {
    assert Add(Add(a, b), c) == a + [DELIM] + b + [DELIM] + c;
    assert Add(a, Add(b, c)) == a + [DELIM] + b + [DELIM] + c;
  }

  /** Taking a path of two or more segments apart and adding it up again changes nothing. */
  lemma ParentPlusLast(path: string)
    requires |Split(path)| >= 2
    ensures Add(Parent(path), Last(path).value) == path
    ensures Parent(path) != "" ==> Split(Parent(path)) == Split(path)[..|Split(path)| - 1]
  {
    var segs := Split(path);
    var k := |segs| - 1;
    SplitThenJoin(path);
    JoinOfSum(segs[..k], [segs[k]]);
    assert segs == segs[..k] + [segs[k]];
    assert AllPlain(segs[..k]);
    JoinThenSplit(segs[..k]);
  }

  /** `parent` and `last` undo `+`: for a name without delimiter, whatever it is added to. */
  lemma UndoAdd(a: string, n: string)
    requires Plain(n)
    ensures Add(a, n) == a + "/" + n
    ensures Parent(Add(a, n)) == a && Last(Add(a, n)) == Ok(n)
  {
    PiecesOfSum(a, n);
    PiecesOfPlain(n);
    PiecesRebuild(a);
    assert (Pieces(a) + [n])[..|Pieces(a)|] == Pieces(a);
  }

  /** A name alone has no parent and is its own last segment; only the empty path has no last segment. */
  lemma NameAlone(n: string)
    requires Plain(n)
    ensures Parent(n) == "" && (n != "" ==> Last(n) == Ok(n))
    ensures Last(n).RangeError? <==> n == ""
  {
    PiecesOfPlain(n);
  }

  // ---------------------------------------------------------------- contains

  /** `path` is `prefix` itself or continues it after a delimiter. */
  predicate Under(path: string, prefix: string) {
    prefix != "" && (path == prefix || prefix + [DELIM] <= path)
  }

  lemma {:induction false} PrefixOfSegments(a: seq<string>, b: seq<string>)
    requires a != [] && AllPlain(a) && AllPlain(b)
    ensures a <= b <==> b != [] && (Join(b) == Join(a) || Join(a) + [DELIM] <= Join(b))
  {
    if a <= b {
      if |a| == |b| { assert a == b; } else { JoinOfSum(a, b[|a|..]); assert b == a + b[|a|..]; }
    } else if b != [] && Join(b) == Join(a) {
      PiecesOfJoin(a); PiecesOfJoin(b);
    } else if b != [] && Join(a) + [DELIM] <= Join(b) {
      var rest := Join(b)[|Join(a)| + 1..];
      assert Join(b) == Join(a) + [DELIM] + rest;
      PiecesOfSum(Join(a), rest);
      PiecesOfJoin(a); PiecesOfJoin(b);
    }
  }

  /** ZstURI::contains: count matching leading segments. */
  method Contains(path: string, compare: string) returns (r: bool)
    ensures r <==> Under(path, compare)
    ensures r <==> compare != "" && Split(compare) <= Split(path)
  {
    var mine, other := Split(path), Split(compare);
    SplitThenJoin(path); SplitThenJoin(compare);
    if other != [] { PrefixOfSegments(other, mine); }
    if |other| > |mine| { return false; }
    var shortest := |other|;
    var contiguous := 0;
    for i := 0 to shortest
      invariant contiguous <= i
      invariant contiguous == i <==> other[..i] == mine[..i]
      invariant contiguous == i ==> i == 0 || i < shortest
    {
      assert other[..i + 1] == other[..i] + [other[i]] && mine[..i + 1] == mine[..i] + [mine[i]];
      if other[i] == mine[i] {
        contiguous := contiguous + 1;
        if contiguous == shortest { return true; }
      }
    }
    return false;
  }

  /** `contains` is a partial order on non-empty paths; nothing contains the empty path, not even itself. */
  lemma UnderIsPartialOrder(a: string, b: string, c: string)
    ensures Under(a, a) <==> a != ""
    ensures Under(a, b) && Under(b, a) ==> a == b
    ensures Under(a, b) && Under(b, c) ==> Under(a, c)
    ensures !Under(a, "")
  {
    if Under(a, b) && Under(b, c) && b != c && a != b {
      assert b == c + [DELIM] + b[|c| + 1..];
      assert a[..|b|] == b;
    }
  }

  // ---------------------------------------------------------------- order

  /** std::lexicographical_compare on the characters. */
  predicate Less(a: string, b: string) {
    b != "" && (a == "" || a[0] < b[0] || (a[0] == b[0] && Less(a[1..], b[1..])))
  }

  /** `a` comes before `b` exactly when, after a common beginning, it ends first or has the smaller character. */
  lemma {:induction false} LessMeans(a: string, b: string)
    ensures Less(a, b) <==>
              exists k {:trigger a[..k]} :: 0 <= k <= |a| && k < |b| && a[..k] == b[..k] && (k == |a| || a[k] < b[k])
  {
    if b == "" {
    } else if a == "" {
      assert a[..0] == b[..0];
    } else {
      LessMeans(a[1..], b[1..]);
      if Less(a, b) {
        if a[0] < b[0] {
          assert a[..0] == b[..0];
        } else {
          var k :| 0 <= k <= |a[1..]| && k < |b[1..]| && a[1..][..k] == b[1..][..k]
                   && (k == |a[1..]| || a[1..][k] < b[1..][k]);
          assert a[..k + 1] == [a[0]] + a[1..][..k] && b[..k + 1] == [b[0]] + b[1..][..k];
        }
      }
      if k :| 0 <= k <= |a| && k < |b| && a[..k] == b[..k] && (k == |a| || a[k] < b[k]) {
        if k > 0 {
          assert a[0] == a[..k][0] == b[..k][0] == b[0];
          assert a[1..][..k - 1] == a[..k][1..] == b[..k][1..] == b[1..][..k - 1];
        }
      }
    }
  }

  /** `<` is a strict total order whose ties are exactly `==`. */
  lemma {:induction false} LessIsTotal(a: string, b: string)
    ensures !Less(a, a)
    ensures !(Less(a, b) && Less(b, a))
    ensures !Less(a, b) && !Less(b, a) <==> a == b
  {
    if a != "" && b != "" {
      LessIsTotal(a[1..], b[1..]);
      assert a == [a[0]] + a[1..] && b == [b[0]] + b[1..];
    } else if a != "" {
      LessIsTotal(a[1..], "");
    }
  }

  lemma {:induction false} LessIsTransitive(a: string, b: string, c: string)
    requires Less(a, b) && Less(b, c)
    ensures Less(a, c)
  {
    if a != "" && a[0] == b[0] && b[0] == c[0] { LessIsTransitive(a[1..], b[1..], c[1..]); }
  }
}
