/**
 * The few Python string operations the pipeline relies on: `str.lower`, `str()` of a CSV
 * cell, `str.split(sep)`, `sep.join`, `str.replace` and `os.path.basename`.
 */
module PyText {
  import opened Wrappers
  import opened JsonValues

  // ---------------------------------------------------------------- case and rendering

  function LowerChar(c: char): char {
    if 'A' <= c <= 'Z' then (c as int + 32) as char else c
  }

  /** `str.lower()`, restricted to ASCII letters. */
  function Lower(s: string): (r: string)
    ensures |r| == |s|
    ensures forall i :: 0 <= i < |s| ==> r[i] == LowerChar(s[i])
  {
    seq(|s|, i requires 0 <= i < |s| => LowerChar(s[i]))
  }

  function DigitChar(d: nat): char
    requires d < 10
  {
    "0123456789"[d]
  }

  function NatToString(n: nat): (r: string)
    ensures |r| > 0 && '0' <= r[0] <= '9'
  {
    if n < 10 then [DigitChar(n)] else NatToString(n / 10) + [DigitChar(n % 10)]
  }

  /** `str(i)` for a Python int. */
  function IntToString(i: int): (r: string)
    ensures |r| > 0 && (r[0] == '-' || '0' <= r[0] <= '9')
  {
    if i < 0 then "-" + NatToString(-i) else NatToString(i)
  }

  /** `str(cell)`: pandas reads a missing value as NaN, whose text is "nan". */
  function PyStr(c: Cell): string {
    match c
    case JStr(s) => s
    case JNull => "nan"
    case JBool(b) => if b then "True" else "False"
    case JInt(i) => IntToString(i)
  }

  // ---------------------------------------------------------------- substrings

  predicate OccursAt(s: string, pat: string, i: nat) {
    i + |pat| <= |s| && s[i..i + |pat|] == pat
  }

  /** The leftmost occurrence of `pat` in `s` at or after `from`. */
  function FindFrom(s: string, pat: string, from: nat): (r: Option<nat>)
    requires from <= |s|
    ensures r.Some? ==> from <= r.value && OccursAt(s, pat, r.value)
    ensures r.Some? ==> forall j: nat :: from <= j < r.value ==> !OccursAt(s, pat, j)
    ensures r.None? ==> forall j: nat :: from <= j ==> !OccursAt(s, pat, j)
    decreases |s| - from
  {
    if from + |pat| > |s| then None
    else if s[from..from + |pat|] == pat then Some(from)
    else FindFrom(s, pat, from + 1)
  }

  function Find(s: string, pat: string): (r: Option<nat>)
    ensures r.Some? ==> OccursAt(s, pat, r.value) && forall j: nat :: j < r.value ==> !OccursAt(s, pat, j)
    ensures r.None? ==> forall j: nat :: !OccursAt(s, pat, j)
  {
    FindFrom(s, pat, 0)
  }

  lemma OccursAtChar(s: string, c: char, j: nat)
    ensures OccursAt(s, [c], j) <==> j < |s| && s[j] == c
  {
    if j < |s| {
      assert s[j..j + 1] == [s[j]];
    }
  }

  lemma SliceOccurrence(s: string, pat: string, i: nat, j: nat)
    requires i <= |s|
    ensures OccursAt(s[..i], pat, j) <==> j + |pat| <= i && OccursAt(s, pat, j)
  {
    if j + |pat| <= i {
      assert s[..i][j..j + |pat|] == s[j..j + |pat|];
    }
  }

  // ---------------------------------------------------------------- split and join

  /** `s.split(sep)` for a non-empty separator (Python raises ValueError on an empty one). */
  function Split(s: string, sep: string): (pieces: seq<string>)
    requires sep != []
    ensures |pieces| >= 1
    decreases |s|
  {
    match Find(s, sep)
    case None => [s]
    case Some(i) => [s[..i]] + Split(s[i + |sep|..], sep)
  }

  /** No piece of a split contains the separator. */
  lemma {:induction false} SplitPiecesAvoidSeparator(s: string, sep: string)
    requires sep != []
    ensures forall k: nat, j: nat :: k < |Split(s, sep)| ==> !OccursAt(Split(s, sep)[k], sep, j)
    decreases |s|
  {
    match Find(s, sep)
    case None =>
    case Some(i) =>
      var rest := s[i + |sep|..];
      SplitPiecesAvoidSeparator(rest, sep);
      forall j: nat ensures !OccursAt(s[..i], sep, j) {
        SliceOccurrence(s, sep, i, j);
      }
      SplitUnfold(s, sep, i);
  }

  /** `sep.join(pieces)`. */
  function Join(pieces: seq<string>, sep: string): string {
    if pieces == [] then ""
    else if |pieces| == 1 then pieces[0]
    else pieces[0] + sep + Join(pieces[1..], sep)
  }

  lemma SliceAround(s: string, i: nat, n: nat)
    requires i + n <= |s|
    ensures s == s[..i] + s[i..i + n] + s[i + n..]
  {
  }

  /** Splitting and joining with the same separator gives back the string. */
  lemma {:induction false} SplitJoin(s: string, sep: string)
    requires sep != []
    ensures Join(Split(s, sep), sep) == s
    decreases |s|
  {
    match Find(s, sep)
    case None =>
    case Some(i) =>
      var rest := s[i + |sep|..];
      SplitJoin(rest, sep);
      SplitStep(s, sep, i);
  }

  lemma SplitStep(s: string, sep: string, i: nat)
    requires sep != [] && Find(s, sep) == Some(i)
    ensures i + |sep| <= |s|
    ensures Join(Split(s, sep), sep) == s[..i] + sep + Join(Split(s[i + |sep|..], sep), sep)
    ensures s[..i] + sep + s[i + |sep|..] == s
  {
    SplitUnfold(s, sep, i);
    JoinCons(s[..i], Split(s[i + |sep|..], sep), sep);
    JoinAround(s, sep, i);
  }

  lemma SplitUnfold(s: string, sep: string, i: nat)
    requires sep != [] && Find(s, sep) == Some(i)
    ensures i + |sep| <= |s|
    ensures Split(s, sep) == [s[..i]] + Split(s[i + |sep|..], sep)
  {
  }

  lemma JoinCons(a: string, pieces: seq<string>, sep: string)
    requires pieces != []
    ensures Join([a] + pieces, sep) == a + sep + Join(pieces, sep)
  {
    assert ([a] + pieces)[0] == a && ([a] + pieces)[1..] == pieces;
  }

  /** An occurrence of `sep` at `i` cuts `s` into the text before it, `sep` and the text after it. */
  lemma JoinAround(s: string, sep: string, i: nat)
    requires OccursAt(s, sep, i)
    ensures s[..i] + sep + s[i + |sep|..] == s
  {
    SliceAround(s, i, |sep|);
  }

  /** The first piece is a prefix of `s`, followed by the end of `s` or by `sep`. */
  lemma FirstPiece(s: string, sep: string)
    requires sep != []
    ensures var f := Split(s, sep)[0];
      |f| <= |s| && f == s[..|f|] && (|f| == |s| || OccursAt(s, sep, |f|))
  {
  }

  /** With no occurrence of `c`, `s.split(c)` is `[s]`. */
  lemma SplitWithoutSeparator(s: string, c: char)
    requires c !in s
    ensures Split(s, [c]) == [s]
  {
    match Find(s, [c])
    case None =>
    case Some(i) =>
      OccursAtChar(s, c, i);
  }

  /** Splitting at the first occurrence of a one-character separator. */
  lemma SplitAtFirst(a: string, c: char, b: string)
    requires c !in a
    ensures Split(a + [c] + b, [c]) == [a] + Split(b, [c])
  {
    var s := a + [c] + b;
    OccursAtChar(s, c, |a|);
    match Find(s, [c])
    case None =>
    case Some(i) =>
      OccursAtChar(s, c, i);
      assert s[..i] == a && s[i + 1..] == b;
  }

  // ---------------------------------------------------------------- replace

  /** `s.replace(old, new)`: every leftmost non-overlapping occurrence, scanning left to right. */
  function Replace(s: string, target: string, repl: string): string
    requires target != []
    decreases |s|
  {
    match Find(s, target)
    case None => s
    case Some(i) => s[..i] + repl + Replace(s[i + |target|..], target, repl)
  }

  /** Python's identity `s.replace(old, new) == new.join(s.split(old))`. */
  lemma {:induction false} ReplaceIsJoinOfSplit(s: string, target: string, repl: string)
    requires target != []
    ensures Replace(s, target, repl) == Join(Split(s, target), repl)
    decreases |s|
  {
    match Find(s, target)
    case None =>
    case Some(i) =>
      var rest := s[i + |target|..];
      ReplaceIsJoinOfSplit(rest, target, repl);
      SplitUnfold(s, target, i);
      JoinCons(s[..i], Split(rest, target), repl);
      assert Replace(s, target, repl) == s[..i] + repl + Replace(rest, target, repl);
  }

  /** Without an occurrence of `target`, replacing changes nothing. */
  lemma ReplaceWithoutOccurrence(s: string, target: string, repl: string)
    requires target != []
    requires forall j: nat :: !OccursAt(s, target, j)
    ensures Replace(s, target, repl) == s
  {
    assert Find(s, target).None?;
  }

  /** Replacing one isolated occurrence that is preceded by no other one. */
  lemma ReplaceFirst(a: string, target: string, b: string, repl: string)
    requires target != []
    requires forall j: nat :: j < |a| ==> !OccursAt(a + target + b, target, j)
    ensures Replace(a + target + b, target, repl) == a + repl + Replace(b, target, repl)
  {
    var s := a + target + b;
    assert OccursAt(s, target, |a|) by {
      assert s[|a|..|a| + |target|] == target;
    }
    assert s[..|a|] == a && s[|a| + |target|..] == b;
  }

  // ---------------------------------------------------------------- paths

  /** `os.path.basename(p)`: the text after the last "/". */
  function Basename(p: string): (r: string)
    ensures |r| <= |p| && r == p[|p| - |r|..]
    ensures '/' !in r
    ensures |r| == |p| || p[|p| - |r| - 1] == '/'
  {
    if p == [] then ""
    else if p[|p| - 1] == '/' then ""
    else
      var r := Basename(p[..|p| - 1]) + [p[|p| - 1]];
      assert p[..|p| - 1][|p| - 1 - (|r| - 1)..] + [p[|p| - 1]] == p[|p| - |r|..];
      r
  }

  lemma {:induction false} BasenameAfterSlash(dir: string, name: string)
    requires '/' !in name
    ensures Basename(dir + "/" + name) == name
    decreases |name|
  {
    var p := dir + "/" + name;
    if name != [] {
      var init := name[..|name| - 1];
      BasenameAfterSlash(dir, init);
      assert p[..|p| - 1] == dir + "/" + init;
      assert p[|p| - 1] == name[|name| - 1];
      assert init + [name[|name| - 1]] == name;
    }
  }
}
