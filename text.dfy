/** The fixed regular expressions of the renamer (`\d+`, `^0+`, `^\.+`), string
    repetition and padding, and Python's `str.split` / `str.join` on a
    one-character separator. */
module Text {
  import opened Wrappers

  /** A decimal digit, as matched by `\d` (ASCII digits only). */
  predicate IsDigit(c: char) {
    '0' <= c <= '9'
  }

  predicate HasDigit(s: string) {
    exists k :: 0 <= k < |s| && IsDigit(s[k])
  }

  /** `[start, end)` is the span a search for `\d+` reports in `s`: the leftmost
      digit starts it and the run of digits extends as far as it can. */
  predicate IsFirstDigitRun(s: string, start: int, end: int) {
    && 0 <= start < end <= |s|
    && (forall k :: start <= k < end ==> IsDigit(s[k]))
    && (forall k :: 0 <= k < start ==> !IsDigit(s[k]))
    && (end == |s| || !IsDigit(s[end]))
  }

  /** Where the run of digits that starts at or before `j` ends. */
  function DigitRunEnd(s: string, j: nat): (e: nat)
    requires j <= |s|
    ensures j <= e <= |s|
    ensures forall k :: j <= k < e ==> IsDigit(s[k])
    ensures e == |s| || !IsDigit(s[e])
    decreases |s| - j
  {
    if j < |s| && IsDigit(s[j]) then DigitRunEnd(s, j + 1) else j
  }

  function DigitSearchFrom(s: string, i: nat): (r: Option<(nat, nat)>)
    requires i <= |s|
    requires forall k :: 0 <= k < i ==> !IsDigit(s[k])
    ensures r.None? <==> !HasDigit(s)
    ensures r.Some? ==> IsFirstDigitRun(s, r.value.0, r.value.1)
    decreases |s| - i
  {
    if i == |s| then None
    else if IsDigit(s[i]) then Some((i, DigitRunEnd(s, i + 1)))
    else DigitSearchFrom(s, i + 1)
  }

  /** `re.compile("\\d+").search(s)`: the span of the first maximal digit run,
      or `None` when `s` holds no digit. */
  function DigitSearch(s: string): (r: Option<(nat, nat)>)
    ensures r.None? <==> !HasDigit(s)
    ensures r.Some? ==> IsFirstDigitRun(s, r.value.0, r.value.1)
  {
    DigitSearchFrom(s, 0)
  }

  /** The span of the first maximal digit run is unique, so the contract of
      `DigitSearch` determines its result. */
  lemma FirstDigitRunUnique(s: string, i: int, j: int, i': int, j': int)
    requires IsFirstDigitRun(s, i, j) && IsFirstDigitRun(s, i', j')
    ensures i == i' && j == j'
  {
    assert IsDigit(s[i]) && IsDigit(s[i']);
    assert i == i';
    assert j == |s| || !IsDigit(s[j]);
    assert j' == |s| || !IsDigit(s[j']);
  }

  /** `re.compile("^" + c + "+").sub("", s)`: removes the leading run of `c`. */
  function StripLeading(s: string, c: char): (r: string)
    ensures |r| <= |s| && r == s[|s| - |r|..]
    ensures forall k :: 0 <= k < |s| - |r| ==> s[k] == c
    ensures r == [] || r[0] != c
  {
    if s != [] && s[0] == c then StripLeading(s[1..], c) else s
  }

  predicate AllChar(s: string, c: char) {
    forall k :: 0 <= k < |s| ==> s[k] == c
  }

  /** Stripping removes everything exactly when the string is all `c`. */
  lemma {:induction false} StripLeadingToNothing(s: string, c: char)
    ensures StripLeading(s, c) == [] <==> AllChar(s, c)
  {
    if s != [] && s[0] == c {
      StripLeadingToNothing(s[1..], c);
      assert AllChar(s, c) <==> AllChar(s[1..], c) by {
        assert forall k :: 0 < k < |s| ==> s[k] == s[1..][k - 1];
      }
    }
  }

  /** Python `s * n` for a one-character or empty `s`. */
  function Repeat(s: string, n: nat): (r: string)
    ensures s == [] ==> r == []
    ensures |s| == 1 ==> |r| == n && forall k :: 0 <= k < n ==> r[k] == s[0]
  {
    if n == 0 then [] else s + Repeat(s, n - 1)
  }

  function Max(a: int, b: int): int {
    if a < b then b else a
  }

  /** Left-padding of `s` to `width` with `filler` repeated, as the renamer does
      it: `filler * (width - len(s)) + s` when `s` is shorter than `width`. */
  function Pad(s: string, width: int, filler: string): (r: string)
    ensures |s| >= width ==> r == s
    ensures filler == [] ==> r == s
    ensures |filler| == 1 ==> |r| == Max(|s|, width)
    ensures |filler| == 1 ==> r[|r| - |s|..] == s
    ensures |filler| == 1 ==> forall k :: 0 <= k < |r| - |s| ==> r[k] == filler[0]
  {
    if |s| < width then Repeat(filler, width - |s|) + s else s
  }

  /** Two strings of the same length made only of `c` are equal. */
  lemma SameRun(x: string, y: string, c: char)
    requires |x| == |y| && AllChar(x, c) && AllChar(y, c)
    ensures x == y
  {
  }

  /** Copies of `c` in front of `r` are absorbed by padding with `c`. */
  lemma PadAbsorbsFiller(z: string, r: string, width: int, c: char)
    requires AllChar(z, c)
    requires |z| + |r| <= width
    ensures Pad(r, width, [c]) == Pad(z + r, width, [c])
  {
    var m := width - |z| - |r|;
    var fill := Repeat([c], m);
    assert Pad(z + r, width, [c]) == fill + (z + r);
    assert fill + (z + r) == (fill + z) + r;
    assert AllChar(fill + z, c) by {
      forall k | 0 <= k < |fill + z|
        ensures (fill + z)[k] == c
      {
        if k >= |fill| {
          assert (fill + z)[k] == z[k - |fill|];
        }
      }
    }
    SameRun(fill + z, Repeat([c], width - |r|), c);
  }

  /** Stripping the leading `c`s and padding back with `c` gives the same
      string as padding directly, as long as the string fits the width: with
      `c == '0'` and width 3, "007" comes back as "007" and "000" as "000". */
  lemma StripThenPad(d: string, width: int, c: char)
    requires |d| <= width
    ensures Pad(StripLeading(d, c), width, [c]) == Pad(d, width, [c])
  {
    var r := StripLeading(d, c);
    var n := |d| - |r|;
    assert d == d[..n] + r;
    assert AllChar(d[..n], c);
    PadAbsorbsFiller(d[..n], r, width, c);
  }

  /** Python `str.split(sep)`: the pieces between separators; never empty. */
  function Split(s: string, sep: char): (parts: seq<string>)
    ensures |parts| >= 1
    ensures forall k :: 0 <= k < |parts| ==> sep !in parts[k]
  {
    if s == [] then [[]]
    else
      var rest := Split(s[1..], sep);
      if s[0] == sep then [[]] + rest
      else [[s[0]] + rest[0]] + rest[1..]
  }

  /** Python `sep.join(parts)`. */
  function Join(parts: seq<string>, sep: char): string
  {
    if |parts| == 0 then []
    else if |parts| == 1 then parts[0]
    else parts[0] + [sep] + Join(parts[1..], sep)
  }

  lemma {:induction false} JoinCons(p: string, rest: seq<string>, sep: char)
    requires |rest| >= 1
    ensures Join([p] + rest, sep) == p + [sep] + Join(rest, sep)
  {
    assert ([p] + rest)[1..] == rest;
  }

  /** Joining the pieces of a split gives the original string back. */
  lemma {:induction false} JoinSplit(s: string, sep: char)
    ensures Join(Split(s, sep), sep) == s
  {
    if s != [] {
      var rest := Split(s[1..], sep);
      JoinSplit(s[1..], sep);
      if s[0] == sep {
        JoinCons([], rest, sep);
        assert s == [sep] + s[1..];
      } else if |rest| == 1 {
        assert Split(s, sep) == [[s[0]] + rest[0]];
        assert s == [s[0]] + s[1..];
      } else {
        assert rest == [rest[0]] + rest[1..];
        JoinCons(rest[0], rest[1..], sep);
        JoinCons([s[0]] + rest[0], rest[1..], sep);
        assert s == [s[0]] + s[1..];
      }
    }
  }

  lemma {:induction false} SplitWithoutSeparator(a: string, b: string, sep: char)
    requires sep !in a
    ensures Split(a + b, sep) == [a + Split(b, sep)[0]] + Split(b, sep)[1..]
  {
    if a != [] {
      assert (a + b)[1..] == a[1..] + b;
      assert a[0] != sep;
      assert sep !in a[1..];
      SplitWithoutSeparator(a[1..], b, sep);
      assert [a[0]] + (a[1..] + Split(b, sep)[0]) == a + Split(b, sep)[0];
    } else {
      assert a + b == b;
      var parts := Split(b, sep);
      assert [] + parts[0] == parts[0];
      assert parts == [parts[0]] + parts[1..];
    }
  }

  /** Splitting a join of separator-free pieces gives the pieces back. */
  lemma {:induction false} SplitJoin(parts: seq<string>, sep: char)
    requires |parts| >= 1
    requires forall k :: 0 <= k < |parts| ==> sep !in parts[k]
    ensures Split(Join(parts, sep), sep) == parts
  {
    if |parts| == 1 {
      SplitWithoutSeparator(parts[0], [], sep);
      assert parts[0] + [] == parts[0];
    } else {
      var rest := Join(parts[1..], sep);
      SplitJoin(parts[1..], sep);
      assert Join(parts, sep) == parts[0] + [sep] + rest;
      SplitWithoutSeparator(parts[0], [sep] + rest, sep);
      assert parts[0] + [sep] + rest == parts[0] + ([sep] + rest);
      assert ([sep] + rest)[1..] == rest;
      assert Split([sep] + rest, sep) == [[]] + Split(rest, sep);
      assert parts[0] + [] == parts[0];
      assert parts == [parts[0]] + parts[1..];
    }
  }

  /** The position of the first `sep` in `s`. */
  function FirstIndex(s: string, sep: char): (k: nat)
    requires sep in s
    ensures k < |s| && s[k] == sep && sep !in s[..k]
  {
    if s[0] == sep then 0
    else
      assert sep in s[1..] by { assert s == [s[0]] + s[1..]; }
      var k := 1 + FirstIndex(s[1..], sep);
      assert s[..k] == [s[0]] + s[1..][..k - 1];
      k
  }

  /** Dropping the first piece of a split and joining the others gives what
      follows the first separator, and nothing when there is none. */
  lemma {:induction false} JoinTailOfSplit(s: string, sep: char)
    ensures sep !in s ==> Join(Split(s, sep)[1..], sep) == []
    ensures sep in s ==> Join(Split(s, sep)[1..], sep) == s[FirstIndex(s, sep) + 1..]
  {
    if s != [] {
      var rest := Split(s[1..], sep);
      if s[0] == sep {
        assert Split(s, sep)[1..] == rest;
        JoinSplit(s[1..], sep);
      } else {
        assert Split(s, sep)[1..] == rest[1..];
        assert s == [s[0]] + s[1..];
        assert sep in s <==> sep in s[1..];
        JoinTailOfSplit(s[1..], sep);
      }
    }
  }

  /** Python `sep.join(s.split(sep)[1:])`: what follows the first separator,
      or nothing when there is none. */
  function AfterFirst(s: string, sep: char): (r: string)
    ensures sep !in s ==> r == []
    ensures sep in s ==> r == s[FirstIndex(s, sep) + 1..]
  {
    JoinTailOfSplit(s, sep);
    Join(Split(s, sep)[1..], sep)
  }

  lemma Examples()
    ensures StripLeading("007", '0') == "7"
    ensures StripLeading("000", '0') == ""
    ensures StripLeading("100", '0') == "100"
    ensures Pad("7", 3, "0") == "007"
    ensures Pad("7", 3, "") == "7"
    ensures Pad("1234", 3, "0") == "1234"
  {
    assert Repeat("0", 2) == "00";
    assert "007"[1..] == "07";
    assert "07"[1..] == "7";
    assert "000"[1..] == "00";
    assert "00"[1..] == "0";
    assert "0"[1..] == "";
  }
}
