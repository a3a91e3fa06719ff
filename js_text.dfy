/**
  The string built-ins the widget relies on: `String.prototype.split` with a
  one-character separator, `String.prototype.trim`, and `RegExp.prototype.exec`
  for the one pattern `/(.+)\[([0-9]*)\]/` that reads an indexed path segment.
 */
module JsText {
  import opened JsValue

  // ---------------------------------------------------------------------------
  // split / join

  /** `s.split(sep)` for a one-character separator. "" splits into [""]. */
  function Split(s: string, sep: char): (parts: seq<string>)
    ensures |parts| >= 1
  {
    if s == [] then [""]
    else if s[0] == sep then [""] + Split(s[1..], sep)
    else
      var rest := Split(s[1..], sep);
      [[s[0]] + rest[0]] + rest[1..]
  }

  /** `parts.join(sep)`, the inverse of Split. */
  function Join(parts: seq<string>, sep: char): string
    requires |parts| >= 1
  {
    if |parts| == 1 then parts[0] else parts[0] + [sep] + Join(parts[1..], sep)
  }

  predicate Free(s: string, c: char) {
    forall i :: 0 <= i < |s| ==> s[i] != c
  }

  /** Joining the parts of `s` puts back its first character in front of the
      joined parts of `s[1..]`. */
  lemma JoinSplitStep(s: string, sep: char)
    requires s != []
    ensures Join(Split(s, sep), sep) == [s[0]] + Join(Split(s[1..], sep), sep)
  {
    var rest := Split(s[1..], sep);
    var parts := Split(s, sep);
    if s[0] == sep {
      assert parts == [""] + rest;
      assert parts[1..] == rest;
    } else if |rest| == 1 {
      assert parts == [[s[0]] + rest[0]];
    } else {
      assert parts == [[s[0]] + rest[0]] + rest[1..];
      assert parts[1..] == rest[1..];
    }
  }

  lemma {:induction false} JoinSplit(s: string, sep: char)
    ensures Join(Split(s, sep), sep) == s
  {
    if s != [] {
      JoinSplit(s[1..], sep);
      JoinSplitStep(s, sep);
      assert [s[0]] + s[1..] == s;
    }
  }

  /** A separator-free piece followed by the separator splits off as one part. */
  lemma {:induction false} SplitPiece(x: string, sep: char, rest: string)
    requires Free(x, sep)
    ensures Split(x + [sep] + rest, sep) == [x] + Split(rest, sep)
    ensures Split(x, sep) == [x]
  {
    if x == [] {
      assert ([sep] + rest)[1..] == rest;
    } else {
      SplitPiece(x[1..], sep, rest);
      assert (x + [sep] + rest)[1..] == x[1..] + [sep] + rest;
      assert [x[0]] + x[1..] == x;
    }
  }

  lemma {:induction false} SplitJoin(parts: seq<string>, sep: char)
    requires |parts| >= 1
    requires forall i :: 0 <= i < |parts| ==> Free(parts[i], sep)
    ensures Split(Join(parts, sep), sep) == parts
  {
    if |parts| == 1 {
      SplitPiece(parts[0], sep, "");
    } else {
      SplitJoin(parts[1..], sep);
      SplitPiece(parts[0], sep, Join(parts[1..], sep));
    }
  }

  // ---------------------------------------------------------------------------
  // trim

  predicate IsLineTerminator(c: char) {
    c == '\n' || c == '\r' || c == '\U{2028}' || c == '\U{2029}'
  }

  /** The characters `trim` removes: WhiteSpace and LineTerminator of ECMAScript
      (section 12.2 and 12.3 of ECMA-262). */
  predicate IsJsWhitespace(c: char) {
    IsLineTerminator(c) ||
    c == '\t' || c == '\U{000B}' || c == '\U{000C}' || c == ' ' || c == '\U{00A0}' ||
    c == '\U{1680}' || ('\U{2000}' <= c <= '\U{200A}') || c == '\U{202F}' ||
    c == '\U{205F}' || c == '\U{3000}' || c == '\U{FEFF}'
  }

  predicate AllWhitespace(s: string) {
    forall i :: 0 <= i < |s| ==> IsJsWhitespace(s[i])
  }

  function TrimStart(s: string): string {
    if s != [] && IsJsWhitespace(s[0]) then TrimStart(s[1..]) else s
  }

  function TrimEnd(s: string): string {
    if s != [] && IsJsWhitespace(s[|s| - 1]) then TrimEnd(s[..|s| - 1]) else s
  }

  /** `s.trim()` */
  function Trim(s: string): string {
    TrimEnd(TrimStart(s))
  }

  lemma {:induction false} TrimStartEmpty(s: string)
    ensures TrimStart(s) == [] <==> AllWhitespace(s)
    ensures TrimStart(s) != [] ==> !IsJsWhitespace(TrimStart(s)[0])
  {
    if s != [] && IsJsWhitespace(s[0]) {
      TrimStartEmpty(s[1..]);
      assert AllWhitespace(s) <==> AllWhitespace(s[1..]) by {
        if AllWhitespace(s[1..]) {
          forall i | 0 <= i < |s| ensures IsJsWhitespace(s[i]) {
            if i > 0 { assert s[i] == s[1..][i - 1]; }
          }
        }
      }
    }
  }

  lemma {:induction false} TrimEndKeepsHead(s: string)
    requires s != [] && !IsJsWhitespace(s[0])
    ensures TrimEnd(s) != []
  {
    if IsJsWhitespace(s[|s| - 1]) {
      TrimEndKeepsHead(s[..|s| - 1]);
    }
  }

  /** `s.trim() === ''` holds exactly for strings made of whitespace only. */
  lemma TrimBlank(s: string)
    ensures Trim(s) == [] <==> AllWhitespace(s)
  {
    TrimStartEmpty(s);
    if TrimStart(s) != [] {
      TrimEndKeepsHead(TrimStart(s));
    }
  }

  // ---------------------------------------------------------------------------
  // RegExp /(.+)\[([0-9]*)\]/ .exec

  /** The two capture groups of a match. */
  datatype BracketMatch = BracketMatch(name: string, index: string)

  /** First position at or after `i` that is not a digit. */
  function DigitsEnd(s: string, i: nat): (k: nat)
    requires i <= |s|
    ensures i <= k <= |s|
    decreases |s| - i
  {
    if i < |s| && IsDigit(s[i]) then DigitsEnd(s, i + 1) else i
  }

  /** First position at or after `i` holding a line terminator, which `.` does not match. */
  function RunEnd(s: string, i: nat): (k: nat)
    requires i <= |s|
    ensures i <= k <= |s|
    decreases |s| - i
  {
    if i < |s| && !IsLineTerminator(s[i]) then RunEnd(s, i + 1) else i
  }

  /** `\[[0-9]*\]` matches at position `j`. */
  predicate BracketAt(s: string, j: nat) {
    j < |s| && s[j] == '[' && DigitsEnd(s, j + 1) < |s| && s[DigitsEnd(s, j + 1)] == ']'
  }

  /** Greedy `.+` from `lo`: the largest `j` with `lo < j < hi` where the bracket part
      matches, tried from the right as backtracking does. */
  function LastBracket(s: string, lo: nat, hi: nat): (r: Option<nat>)
    ensures r.Some? ==> lo < r.value < hi && BracketAt(s, r.value)
    decreases hi
  {
    if hi <= lo + 1 then None
    else if BracketAt(s, hi - 1) then Some(hi - 1)
    else LastBracket(s, lo, hi - 1)
  }

  /** The match the pattern finds when started at position `i`, if any. */
  function MatchAt(s: string, i: nat): Option<BracketMatch>
    requires i <= |s|
  {
    match LastBracket(s, i, RunEnd(s, i))
    case None => None
    case Some(j) => Some(BracketMatch(s[i..j], s[j + 1..DigitsEnd(s, j + 1)]))
  }

  /** `/(.+)\[([0-9]*)\]/.exec(s)` scanning start positions from `i` on
      (the pattern is not anchored: the leftmost start wins). */
  function Exec(s: string, i: nat): Option<BracketMatch>
    decreases |s| - i
  {
    if i >= |s| then None
    else match MatchAt(s, i)
      case Some(m) => Some(m)
      case None => Exec(s, i + 1)
  }

  lemma {:induction false} ExecNoBracket(s: string, i: nat)
    requires Free(s, '[')
    ensures Exec(s, i) == None
    decreases |s| - i
  {
    if i < |s| {
      assert LastBracket(s, i, RunEnd(s, i)) == None;
      ExecNoBracket(s, i + 1);
    }
  }

  lemma {:induction false} DigitsRun(s: string, i: nat, k: nat)
    requires i <= k < |s| && !IsDigit(s[k])
    requires forall m :: i <= m < k ==> IsDigit(s[m])
    ensures DigitsEnd(s, i) == k
    decreases k - i
  {
    if i < k {
      DigitsRun(s, i + 1, k);
    }
  }

  lemma {:induction false} NoTerminatorRun(s: string, i: nat)
    requires i <= |s|
    requires forall m :: i <= m < |s| ==> !IsLineTerminator(s[m])
    ensures RunEnd(s, i) == |s|
    decreases |s| - i
  {
    if i < |s| {
      NoTerminatorRun(s, i + 1);
    }
  }

  lemma {:induction false} LastBracketSkips(s: string, lo: nat, a: nat, hi: nat)
    requires lo + 1 <= a <= hi
    requires forall j :: a <= j < hi ==> !BracketAt(s, j)
    ensures LastBracket(s, lo, hi) == LastBracket(s, lo, a)
    decreases hi
  {
    if hi > a {
      LastBracketSkips(s, lo, a, hi - 1);
    }
  }

  /** The text `name[idx]` has no line terminator, and its digits run from just after
      the bracket to the closing bracket. */
  lemma IndexedSegmentText(name: string, idx: string)
    requires forall m :: 0 <= m < |name| ==> !IsLineTerminator(name[m])
    requires AllDigits(idx)
    ensures var s := name + "[" + idx + "]";
      && RunEnd(s, 0) == |s|
      && DigitsEnd(s, |name| + 1) == |s| - 1
      && s[0..|name|] == name && s[|name| + 1..|s| - 1] == idx
  {
    var s := name + "[" + idx + "]";
    var j := |name|;
    forall m | 0 <= m < |s| ensures !IsLineTerminator(s[m]) {
      if m > j && m < |s| - 1 { assert s[m] == idx[m - j - 1]; }
    }
    NoTerminatorRun(s, 0);
    DigitsRun(s, j + 1, |s| - 1);
    assert s[0..j] == name;
    assert s[j + 1..|s| - 1] == idx;
  }

  /** In `name[idx]` the only place the bracket part matches is the `[` after `name`. */
  lemma IndexedSegmentBracket(name: string, idx: string)
    requires name != []
    requires AllDigits(idx)
    requires DigitsEnd(name + "[" + idx + "]", |name| + 1) == |name| + |idx| + 1
    ensures var s := name + "[" + idx + "]";
      LastBracket(s, 0, |s|) == Some(|name|)
  {
    var s := name + "[" + idx + "]";
    var j := |name|;
    assert s[j] == '[' && s[|s| - 1] == ']';
    assert BracketAt(s, j);
    forall k | j + 1 <= k < |s| ensures !BracketAt(s, k) {
      if k < |s| - 1 { assert s[k] == idx[k - j - 1]; }
    }
    LastBracketSkips(s, 0, j + 1, |s|);
  }

  /** A segment written `name[idx]` is read as the pair (name, idx). */
  lemma ExecIndexedSegment(name: string, idx: string)
    requires name != []
    requires forall m :: 0 <= m < |name| ==> !IsLineTerminator(name[m])
    requires AllDigits(idx)
    ensures Exec(name + "[" + idx + "]", 0) == Some(BracketMatch(name, idx))
  {
    IndexedSegmentText(name, idx);
    IndexedSegmentBracket(name, idx);
  }
}
