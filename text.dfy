/** The parts of Python's `str` that the pipeline relies on, with Python's
    semantics: `strip`, `startswith`, `in`, `split`, `join`, `replace`,
    `lower`, `isdigit` and `str(int)`. */
module Text {
  import opened Results

  /** `c.isspace()`: the characters `str.strip()` and the regular expression
      class `\s` treat as whitespace. */
  predicate IsSpace(c: char) {
    var n := c as int;
    (9 <= n <= 13) || (28 <= n <= 32) || n == 0x85 || n == 0xA0 || n == 0x1680
    || (0x2000 <= n <= 0x200A) || n == 0x2028 || n == 0x2029 || n == 0x202F
    || n == 0x205F || n == 0x3000
  }

  predicate IsAsciiLetter(c: char) {
    ('a' <= c <= 'z') || ('A' <= c <= 'Z')
  }

  predicate IsAsciiDigit(c: char) {
    '0' <= c <= '9'
  }

  /** `s.lstrip()` */
  function LStrip(s: string): (r: string)
    ensures |r| <= |s| && r == s[|s| - |r|..]
    ensures r != [] ==> !IsSpace(r[0])
    ensures forall i :: 0 <= i < |s| - |r| ==> IsSpace(s[i])
    decreases |s|
  {
    if s != [] && IsSpace(s[0]) then LStrip(s[1..]) else s
  }

  /** `s.rstrip()` */
  function RStrip(s: string): (r: string)
    ensures |r| <= |s| && r == s[..|r|]
    ensures r != [] ==> !IsSpace(r[|r| - 1])
    ensures forall i :: |r| <= i < |s| ==> IsSpace(s[i])
    decreases |s|
  {
    if s != [] && IsSpace(s[|s| - 1]) then RStrip(s[..|s| - 1]) else s
  }

  /** `s.strip()`: the result is empty exactly when `s` is all whitespace,
      and otherwise starts and ends with a non-whitespace character. */
  function Strip(s: string): (r: string)
    ensures |r| <= |s|
    ensures r != [] ==> !IsSpace(r[0]) && !IsSpace(r[|r| - 1])
    ensures r == [] <==> forall i :: 0 <= i < |s| ==> IsSpace(s[i])
  {
    var l := LStrip(s);
    var r := RStrip(l);
    if l == [] then
      r
    else
      assert l[0] == s[|s| - |l|] && !IsSpace(l[0]);
      assert |r| > 0;
      assert r[0] == l[0];
      r
  }

  /** `s.strip(chars)` for the characters in `cs`. */
  function StripChars(s: string, cs: set<char>): (r: string)
    ensures |r| <= |s|
    ensures r != [] ==> r[0] !in cs && r[|r| - 1] !in cs
  {
    RStripChars(LStripChars(s, cs), cs)
  }

  function LStripChars(s: string, cs: set<char>): (r: string)
    ensures |r| <= |s| && r == s[|s| - |r|..]
    ensures r != [] ==> r[0] !in cs
    decreases |s|
  {
    if s != [] && s[0] in cs then LStripChars(s[1..], cs) else s
  }

  function RStripChars(s: string, cs: set<char>): (r: string)
    ensures |r| <= |s| && r == s[..|r|]
    ensures r != [] ==> r[|r| - 1] !in cs && r[0] == s[0]
    decreases |s|
  {
    if s != [] && s[|s| - 1] in cs then RStripChars(s[..|s| - 1], cs) else s
  }

  /** `s.startswith(p)` */
  predicate StartsWith(s: string, p: string) {
    |p| <= |s| && s[..|p|] == p
  }

  /** A prefix stays a prefix when the string grows at the end. */
  lemma StartsWithExtend(s: string, p: string, t: string)
    requires StartsWith(s, p)
    ensures StartsWith(s + t, p)
  {
    assert (s + t)[..|p|] == s[..|p|];
  }

  /** `s.endswith(p)` */
  predicate EndsWith(s: string, p: string) {
    |p| <= |s| && s[|s| - |p|..] == p
  }

  /** `sub` occurs in `s` starting at index `i`. */
  predicate OccursAt(s: string, sub: string, i: nat) {
    i + |sub| <= |s| && s[i..i + |sub|] == sub
  }

  lemma OccursShift(s: string, sub: string)
    requires s != []
    ensures forall j: nat :: 1 <= j ==> (OccursAt(s, sub, j) <==> OccursAt(s[1..], sub, j - 1))
  {
    forall j: nat | 1 <= j
      ensures OccursAt(s, sub, j) <==> OccursAt(s[1..], sub, j - 1)
    {
      if j + |sub| <= |s| {
        var here, there := s[j..j + |sub|], s[1..][j - 1..j - 1 + |sub|];
        forall k | 0 <= k < |sub| ensures here[k] == there[k] {
        }
        assert here == there;
      }
    }
  }

  /** `s.find(sub)`: the first index at which `sub` occurs, if any. */
  function IndexOf(s: string, sub: string): (r: Option<nat>)
    ensures r.Some? ==> OccursAt(s, sub, r.value)
    ensures r.Some? ==> forall j: nat :: j < r.value ==> !OccursAt(s, sub, j)
    ensures r.None? ==> forall j: nat :: !OccursAt(s, sub, j)
    decreases |s|
  {
    if |s| < |sub| then None
    else if s[..|sub|] == sub then Some(0)
    else
      OccursShift(s, sub);
      match IndexOf(s[1..], sub)
      case None => None
      case Some(k) => Some(k + 1)
  }

  /** `sub in s` */
  predicate Contains(s: string, sub: string) {
    IndexOf(s, sub).Some?
  }

  /** The text before the first occurrence of `sep`, or all of `s`. */
  function Before(s: string, sep: string): string {
    match IndexOf(s, sep)
    case None => s
    case Some(i) => s[..i]
  }

  /** The text before the first separator is a prefix of `s` that does not
      contain the separator. */
  lemma BeforeShape(s: string, sep: string)
    requires sep != []
    ensures StartsWith(s, Before(s, sep))
    ensures !Contains(Before(s, sep), sep)
  {
    match IndexOf(s, sep)
    case None =>
    case Some(i) =>
      assert OccursAt(s, sep, i);
      var b := s[..i];
      forall j: nat ensures !OccursAt(b, sep, j) {
        if j + |sep| <= |b| {
          assert b[j..j + |sep|] == s[j..j + |sep|];
          assert j < i;
          assert !OccursAt(s, sep, j);
        }
      }
  }

  /** The text before the first separator stops either at the end of `s` or
      where the separator begins. */
  lemma BeforeEnds(s: string, sep: string)
    requires sep != []
    ensures |Before(s, sep)| == |s| || OccursAt(s, sep, |Before(s, sep)|)
  {
    match IndexOf(s, sep)
    case None =>
    case Some(i) =>
  }

  lemma StartsWithTrans(s: string, t: string, u: string)
    requires StartsWith(s, t) && StartsWith(t, u)
    ensures StartsWith(s, u)
  {
    assert s[..|u|] == t[..|t|][..|u|];
  }

  /** `s.split(sep, 1)[1]`: the text after the first occurrence of `sep`. */
  function After(s: string, sep: string): string
    requires Contains(s, sep)
  {
    var i := IndexOf(s, sep).value;
    s[i + |sep|..]
  }

  /** `s.split(sep)` for a non-empty separator: the pieces between the
      occurrences of `sep`, scanned left to right. */
  function Split(s: string, sep: string): (r: seq<string>)
    requires sep != []
    ensures |r| >= 1
    ensures |r| >= 2 <==> Contains(s, sep)
    ensures r[0] == Before(s, sep)
    ensures Contains(s, sep) ==> r[1] == Before(After(s, sep), sep)
    decreases |s|
  {
    match IndexOf(s, sep)
    case None => [s]
    case Some(i) => [s[..i]] + Split(s[i + |sep|..], sep)
  }

  /** `sep.join(parts)` */
  function Join(parts: seq<string>, sep: string): string {
    if parts == [] then ""
    else if |parts| == 1 then parts[0]
    else parts[0] + sep + Join(parts[1..], sep)
  }

  lemma JoinCons(x: string, parts: seq<string>, sep: string)
    requires parts != []
    ensures Join([x] + parts, sep) == x + sep + Join(parts, sep)
  {
    assert ([x] + parts)[1..] == parts;
  }

  /** One step of `Split` at the first occurrence `i` of the separator. */
  lemma SplitAt(s: string, sep: string, i: nat)
    requires sep != [] && IndexOf(s, sep) == Some(i)
    ensures Split(s, sep) == [s[..i]] + Split(s[i + |sep|..], sep)
    ensures s == s[..i] + sep + s[i + |sep|..]
  {
    assert OccursAt(s, sep, i);
    assert s == s[..i] + s[i..i + |sep|] + s[i + |sep|..];
  }

  /** Joining with one more part at the end. */
  lemma {:induction false} JoinSnoc(parts: seq<string>, x: string, sep: string)
    requires parts != []
    ensures Join(parts + [x], sep) == Join(parts, sep) + sep + x
    decreases |parts|
  {
    if |parts| == 1 {
      assert (parts + [x])[1..] == [x];
    } else {
      assert (parts + [x])[1..] == parts[1..] + [x];
      JoinSnoc(parts[1..], x, sep);
    }
  }

  /** Splitting on a separator and joining with it gives the text back. */
  lemma {:induction false} JoinSplit(s: string, sep: string)
    requires sep != []
    ensures Join(Split(s, sep), sep) == s
    decreases |s|
  {
    match IndexOf(s, sep)
    case None =>
    case Some(i) =>
      var rest := s[i + |sep|..];
      SplitAt(s, sep, i);
      JoinSplit(rest, sep);
      JoinCons(s[..i], Split(rest, sep), sep);
  }

  /** `s.replace(old, new)` for a non-empty `old`. */
  function Replace(s: string, target: string, replacement: string): string
    requires target != []
  {
    Join(Split(s, target), replacement)
  }

  /** Every occurrence of character `a` replaced by `b`. */
  function SubstituteChar(s: string, a: char, b: char): (r: string)
    ensures |r| == |s|
    ensures forall i :: 0 <= i < |s| ==> r[i] == (if s[i] == a then b else s[i])
  {
    seq(|s|, i requires 0 <= i < |s| => if s[i] == a then b else s[i])
  }

  /** Replacing one character by another is a character-wise substitution. */
  lemma {:induction false} ReplaceSingleChar(s: string, a: char, b: char)
    ensures Replace(s, [a], [b]) == SubstituteChar(s, a, b)
    decreases |s|
  {
    match IndexOf(s, [a])
    case None =>
      forall i | 0 <= i < |s| ensures s[i] != a {
        assert !OccursAt(s, [a], i);
        assert s[i..i + 1] == [s[i]];
      }
    case Some(i) =>
      ReplaceSingleChar(s[i + 1..], a, b);
      ReplaceAtFirst(s, a, b, i);
      SubstituteAtFirst(s, a, b, i);
  }

  /** Replacing at the first occurrence of a character. */
  lemma ReplaceAtFirst(s: string, a: char, b: char, i: nat)
    requires IndexOf(s, [a]) == Some(i)
    ensures Replace(s, [a], [b]) == s[..i] + [b] + Replace(s[i + 1..], [a], [b])
  {
    SplitAt(s, [a], i);
    JoinCons(s[..i], Split(s[i + 1..], [a]), [b]);
  }

  /** Substituting around the first occurrence of a character. */
  lemma SubstituteAtFirst(s: string, a: char, b: char, i: nat)
    requires IndexOf(s, [a]) == Some(i)
    ensures SubstituteChar(s, a, b) == s[..i] + [b] + SubstituteChar(s[i + 1..], a, b)
  {
    assert OccursAt(s, [a], i);
    assert s[i..i + 1] == [s[i]];
    forall j | 0 <= j < i ensures s[j] != a {
      assert !OccursAt(s, [a], j);
      assert s[j..j + 1] == [s[j]];
    }
  }

  /** `c.lower()` for ASCII letters; every other character is kept. */
  function LowerChar(c: char): char {
    if 'A' <= c <= 'Z' then (c as int + 32) as char else c
  }

  /** `s.lower()` */
  function Lower(s: string): (r: string)
    ensures |r| == |s|
    ensures forall i :: 0 <= i < |s| ==> r[i] == LowerChar(s[i])
  {
    seq(|s|, i requires 0 <= i < |s| => LowerChar(s[i]))
  }

  /** `s.isdigit()`: non-empty and made of decimal digits. */
  predicate IsDigits(s: string) {
    s != [] && forall i :: 0 <= i < |s| ==> IsAsciiDigit(s[i])
  }

  /** `s[:n]` */
  function Take<T>(s: seq<T>, n: nat): (r: seq<T>)
    ensures |r| <= n && |r| <= |s|
    ensures r == s[..|r|]
    ensures |s| <= n ==> r == s
    ensures |s| > n ==> |r| == n
  {
    if |s| <= n then s else s[..n]
  }

  /** `str(n)` for a natural number. */
  function NatToString(n: nat): (r: string)
    ensures r != []
    ensures forall i :: 0 <= i < |r| ==> IsAsciiDigit(r[i])
  {
    var d := ['0', '1', '2', '3', '4', '5', '6', '7', '8', '9'][n % 10];
    if n < 10 then [d] else NatToString(n / 10) + [d]
  }

  /** `s.rsplit(c, 1)[0]`: the text before the last occurrence of `c`, or
      all of `s` when `c` does not occur. */
  function BeforeLast(s: string, c: char): (r: string)
    ensures c in s ==> |r| < |s| && s[|r|] == c && r == s[..|r|]
    ensures c in s ==> forall i :: |r| < i < |s| ==> s[i] != c
    ensures c !in s ==> r == s
    decreases |s|
  {
    if c !in s then s
    else if s[|s| - 1] == c then s[..|s| - 1]
    else
      assert s == s[..|s| - 1] + [s[|s| - 1]];
      BeforeLast(s[..|s| - 1], c)
  }

  /** `xs` is `ys` with some elements left out, order kept. */
  predicate IsSubsequence<T(==)>(xs: seq<T>, ys: seq<T>)
    decreases |ys|
  {
    if ys == [] then xs == []
    else (xs != [] && xs[|xs| - 1] == ys[|ys| - 1] && IsSubsequence(xs[..|xs| - 1], ys[..|ys| - 1]))
         || IsSubsequence(xs, ys[..|ys| - 1])
  }

  /** `[line.strip() for line in lines if line.strip()]`: the non-blank
      lines, trimmed, in their order. */
  function NonBlankStripped(lines: seq<string>): (r: seq<string>)
    ensures |r| <= |lines|
    ensures forall k :: 0 <= k < |r| ==> r[k] != [] && !IsSpace(r[k][0]) && !IsSpace(r[k][|r[k]| - 1])
    decreases |lines|
  {
    if lines == [] then []
    else
      var init := NonBlankStripped(lines[..|lines| - 1]);
      var t := Strip(lines[|lines| - 1]);
      if t != "" then init + [t] else init
  }

  /** `[line.strip() for line in lines]`. */
  function StripEach(lines: seq<string>): (r: seq<string>)
    ensures |r| == |lines|
    ensures forall i :: 0 <= i < |lines| ==> r[i] == Strip(lines[i])
  {
    seq(|lines|, i requires 0 <= i < |lines| => Strip(lines[i]))
  }

  /** Trimming every line but the last, then the last. */
  lemma StripEachSnoc(lines: seq<string>)
    requires lines != []
    ensures StripEach(lines) == StripEach(lines[..|lines| - 1]) + [Strip(lines[|lines| - 1])]
  {
    var init := lines[..|lines| - 1];
    var all, parts := StripEach(lines), StripEach(init) + [Strip(lines[|lines| - 1])];
    forall i | 0 <= i < |lines| ensures all[i] == parts[i] {
      if i < |init| {
        assert init[i] == lines[i];
      }
    }
    assert all == parts;
  }

  /** Every kept line is the trimmed form of an input line, in input order. */
  lemma {:induction false} NonBlankStrippedOrder(lines: seq<string>)
    ensures IsSubsequence(NonBlankStripped(lines), StripEach(lines))
    decreases |lines|
  {
    if lines != [] {
      var init := lines[..|lines| - 1];
      NonBlankStrippedOrder(init);
      StripEachSnoc(lines);
      var all := StripEach(lines);
      assert all[..|all| - 1] == StripEach(init);
      var r := NonBlankStripped(lines);
      if Strip(lines[|lines| - 1]) != "" {
        assert r[..|r| - 1] == NonBlankStripped(init);
      }
    }
  }
}
