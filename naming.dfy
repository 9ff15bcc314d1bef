/**
 * File and path names built by the splitter: decimal rendering of track
 * numbers (`{n}` and the zero-padded `{n:00}`), the per-track output name
 * `"{NN} {title}.flac"`, and paths `dir\name`.
 */
module Naming {
  import opened Cue

  predicate IsDigit(c: char) {
    '0' <= c <= '9'
  }

  predicate AllDigits(s: string) {
    forall k :: 0 <= k < |s| ==> IsDigit(s[k])
  }

  function DigitChar(d: nat): (c: char)
    requires d < 10
    ensures IsDigit(c) && c as int - '0' as int == d
  {
    (48 + d) as char
  }

  /** The value of a string of decimal digits. */
  function DigitsValue(s: string): nat
    requires AllDigits(s)
  {
    if s == [] then 0 else DigitsValue(s[..|s| - 1]) * 10 + (s[|s| - 1] as int - '0' as int)
  }

  /** The decimal text of `n`, as `n.ToString()` renders it: no sign, no leading zeros. */
  function NatText(n: nat): (s: string)
    ensures 1 <= |s| && AllDigits(s)
    ensures s[0] == '0' ==> n == 0
    ensures n < 10 <==> |s| == 1
    decreases n
  {
    if n < 10 then [DigitChar(n)] else NatText(n / 10) + [DigitChar(n % 10)]
  }

  lemma {:induction false} NatTextValue(n: nat)
    ensures DigitsValue(NatText(n)) == n
    decreases n
  {
    var s := NatText(n);
    if n < 10 {
      assert s[..0] == [];
    } else {
      NatTextValue(n / 10);
      assert s[..|s| - 1] == NatText(n / 10);
    }
  }

  /** The decimal text of an integer, with a leading minus sign when negative. */
  function IntText(x: int): (s: string)
    ensures 1 <= |s|
    ensures x < 0 <==> s[0] == '-'
  {
    if x < 0 then "-" + NatText(-x) else NatText(x)
  }

  /** After the optional minus sign, the text is the decimal digits of `|x|`. */
  lemma IntTextValue(x: int)
    ensures x >= 0 ==> AllDigits(IntText(x)) && DigitsValue(IntText(x)) == x
    ensures x < 0 ==> AllDigits(IntText(x)[1..]) && DigitsValue(IntText(x)[1..]) == -x
  {
    if x >= 0 {
      NatTextValue(x);
    } else {
      assert IntText(x)[1..] == NatText(-x);
      NatTextValue(-x);
    }
  }

  /** `{n:00}`: the decimal text of `n`, padded on the left with zeros to two digits. */
  function Pad2(n: nat): (s: string)
    ensures AllDigits(s)
  {
    if n < 10 then "0" + NatText(n) else NatText(n)
  }

  /**
   * The padded number has at least two digits, exactly two below 100, no
   * padding from 10 on, and reads back as `n`.
   */
  lemma Pad2Correct(n: nat)
    ensures |Pad2(n)| >= 2
    ensures n < 100 ==> |Pad2(n)| == 2
    ensures n >= 10 ==> Pad2(n) == NatText(n)
    ensures DigitsValue(Pad2(n)) == n
  {
    var s := Pad2(n);
    if n < 10 {
      assert s[..|s| - 1] == "0";
      assert "0"[..0] == [];
    } else {
      NatTextValue(n);
      if n < 100 {
        assert NatText(n) == NatText(n / 10) + [DigitChar(n % 10)];
      }
    }
  }

  /** `"{n:00} {title}.flac"`, the name of the file track `n` is written to. */
  function OutputName(n: nat, title: string): string {
    Pad2(n) + " " + title + ".flac"
  }

  /** The index of the first space in `s`, or `|s|` when there is none. */
  function FirstSpace(s: string): (k: nat)
    ensures k <= |s|
    ensures forall j :: 0 <= j < k ==> s[j] != ' '
    ensures k < |s| ==> s[k] == ' '
  {
    if s == [] || s[0] == ' ' then 0 else 1 + FirstSpace(s[1..])
  }

  /** Reads a track number and a title back out of an output name. */
  function ParseOutputName(s: string): Option<(nat, string)> {
    var k := FirstSpace(s);
    if k == 0 || k == |s| || !AllDigits(s[..k]) then None
    else
      var rest := s[k + 1..];
      if |rest| < 5 || rest[|rest| - 5..] != ".flac" then None
      else Some((DigitsValue(s[..k]), rest[..|rest| - 5]))
  }

  /** The first space is at `p` when `s[p]` is a space and nothing before it is. */
  lemma FirstSpaceAt(s: string, p: nat)
    requires p < |s| && s[p] == ' '
    requires forall j :: 0 <= j < p ==> s[j] != ' '
    ensures FirstSpace(s) == p
  {
  }

  /** A non-empty run of digits, a space, and a name ending in `.flac` parse back. */
  lemma ParseDigitsSpaceFlac(s: string, digits: string, rest: string)
    requires s == digits + ([' '] + rest)
    requires digits != [] && AllDigits(digits)
    requires |rest| >= 5 && rest[|rest| - 5..] == ".flac"
    ensures ParseOutputName(s) == Some((DigitsValue(digits), rest[..|rest| - 5]))
  {
    assert FirstSpace(s) == |digits| by {
      forall j | 0 <= j < |digits|
        ensures s[j] != ' '
      {
        assert s[j] == digits[j] && IsDigit(digits[j]);
      }
      FirstSpaceAt(s, |digits|);
    }
    assert s[..|digits|] == digits;
    assert s[|digits| + 1..] == rest;
  }

  /** The output name records its track number and its title, whatever the title. */
  lemma OutputNameRoundTrip(n: nat, title: string)
    ensures ParseOutputName(OutputName(n, title)) == Some((n, title))
  {
    var rest := title + ".flac";
    Pad2Correct(n);
    assert OutputName(n, title) == Pad2(n) + ([' '] + rest);
    assert rest[|rest| - 5..] == ".flac";
    assert rest[..|rest| - 5] == title;
    ParseDigitsSpaceFlac(OutputName(n, title), Pad2(n), rest);
  }

  /** Two tracks get the same output name only with the same number and title. */
  lemma OutputNameInjective(n1: nat, t1: string, n2: nat, t2: string)
    ensures OutputName(n1, t1) == OutputName(n2, t2) <==> n1 == n2 && t1 == t2
  {
    OutputNameRoundTrip(n1, t1);
    OutputNameRoundTrip(n2, t2);
  }

  /** `{dir}\{name}`: a file name inside a directory, with a backslash between. */
  function InDirectory(dir: string, name: string): (path: string)
    ensures |path| == |dir| + 1 + |name|
    ensures path[..|dir|] == dir && path[|dir|] == '\\' && path[|dir| + 1..] == name
  {
    dir + "\\" + name
  }

  /** Within one directory, different names give different paths. */
  lemma InDirectoryInjective(dir: string, a: string, b: string)
    ensures InDirectory(dir, a) == InDirectory(dir, b) <==> a == b
  {
  }

  /** `{cueDir}\cover.jpg`, the cover image next to the cue sheet. */
  function CoverPath(cueDir: string): string {
    InDirectory(cueDir, "cover.jpg")
  }
}
