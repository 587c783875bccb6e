/** The JavaScript string operations the dashboard relies on, over `seq<char>`. */
module JsStrings {

  /** `s.startsWith(p)`. */
  predicate StartsWith(s: string, p: string)
  {
    |p| <= |s| && s[..|p|] == p
  }

  /** `s.endsWith(p)`. */
  predicate EndsWith(s: string, p: string)
  {
    |p| <= |s| && s[|s| - |p|..] == p
  }

  /** `p` occurs in `s` at position `i`. */
  predicate OccursAt(s: string, p: string, i: int)
  {
    0 <= i && i + |p| <= |s| && s[i..i + |p|] == p
  }

  /** `s.includes(p)`: `p` occurs at some position of `s`. */
  predicate Includes(s: string, p: string)
  {
    exists i | 0 <= i <= |s| - |p| :: OccursAt(s, p, i)
  }

  /** `toUpperCase` on one character; only the ASCII letters are mapped. */
  function UpperChar(c: char): char
  {
    if 'a' <= c <= 'z' then (c as int - 32) as char else c
  }

  /** `s.toUpperCase()`, restricted to ASCII case mapping. */
  function ToUpper(s: string): (r: string)
    ensures |r| == |s|
    ensures forall i :: 0 <= i < |s| ==> r[i] == UpperChar(s[i])
  {
    seq(|s|, i requires 0 <= i < |s| => UpperChar(s[i]))
  }

  /** Upper-casing twice is the same as once. */
  lemma ToUpperIdempotent(s: string)
    ensures ToUpper(ToUpper(s)) == ToUpper(s)
  {
  }

  /** `s.replace(p, q)` with a string pattern: only the first occurrence is replaced. */
  function ReplaceFirst(s: string, p: string, q: string): (r: string)
    ensures r == s || |r| == |s| - |p| + |q|
    decreases |s|
  {
    if StartsWith(s, p) then q + s[|p|..]
    else if |s| == 0 then s
    else [s[0]] + ReplaceFirst(s[1..], p, q)
  }

  /** An occurrence in `s[1..]` is an occurrence in `s` one position later. */
  lemma OccursShift(s: string, p: string, j: int)
    requires |s| > 0 && j >= 0
    ensures OccursAt(s[1..], p, j) <==> OccursAt(s, p, j + 1)
  {
    if 0 <= j && j + |p| <= |s| - 1 {
      assert s[1..][j..j + |p|] == s[j + 1..j + 1 + |p|];
    }
  }

  /** Replacing the first occurrence: what precedes it is kept, `p` becomes `q`,
      and what follows it is kept. */
  lemma {:induction false} ReplaceFirstSplits(s: string, p: string, q: string, i: nat)
    requires OccursAt(s, p, i)
    requires forall j :: 0 <= j < i ==> !OccursAt(s, p, j)
    ensures ReplaceFirst(s, p, q) == s[..i] + q + s[i + |p|..]
    decreases |s|
  {
    if i == 0 {
      assert StartsWith(s, p);
    } else {
      assert !OccursAt(s, p, 0);
      assert !StartsWith(s, p);
      forall j | 0 <= j < i - 1
        ensures !OccursAt(s[1..], p, j)
      {
        OccursShift(s, p, j);
      }
      OccursShift(s, p, i - 1);
      ReplaceFirstSplits(s[1..], p, q, i - 1);
      calc {
        ReplaceFirst(s, p, q);
        [s[0]] + ReplaceFirst(s[1..], p, q);
        [s[0]] + (s[1..][..i - 1] + q + s[1..][i - 1 + |p|..]);
        { assert [s[0]] + s[1..][..i - 1] == s[..i];
          assert s[1..][i - 1 + |p|..] == s[i + |p|..]; }
        s[..i] + q + s[i + |p|..];
      }
    }
  }

  /** Without an occurrence of `p`, `ReplaceFirst` returns `s` unchanged. */
  lemma {:induction false} ReplaceFirstAbsent(s: string, p: string, q: string)
    requires !Includes(s, p)
    ensures ReplaceFirst(s, p, q) == s
    decreases |s|
  {
    assert !OccursAt(s, p, 0);
    if |s| > 0 {
      forall j | 0 <= j <= |s| - 1 - |p|
        ensures !OccursAt(s[1..], p, j)
      {
        OccursShift(s, p, j);
      }
      ReplaceFirstAbsent(s[1..], p, q);
    }
  }

  /** `s.replace(/c/g, "")`: every occurrence of the character `c` is deleted. */
  function RemoveChar(s: string, c: char): (r: string)
    ensures c !in r
    ensures |r| <= |s|
    ensures forall x :: x in r ==> x in s
  {
    if |s| == 0 then s
    else if s[0] == c then RemoveChar(s[1..], c)
    else [s[0]] + RemoveChar(s[1..], c)
  }

  /** Deleting a character keeps every other character, in order and with multiplicity. */
  lemma {:induction false} RemoveCharKeepsOthers(s: string, c: char)
    ensures multiset(RemoveChar(s, c)) == multiset(s)[c := 0]
  {
    if |s| > 0 {
      RemoveCharKeepsOthers(s[1..], c);
      assert s == [s[0]] + s[1..];
    }
  }

  /** `lines.join(sep)`. */
  function Join(lines: seq<string>, sep: char): (r: string)
    ensures |lines| > 0 ==> |r| >= |lines[0]| + |lines| - 1 && r[..|lines[0]|] == lines[0]
  {
    if |lines| == 0 then ""
    else if |lines| == 1 then lines[0]
    else lines[0] + [sep] + Join(lines[1..], sep)
  }

  /** `s.split(sep)` for a one-character separator. */
  function Split(s: string, sep: char): (r: seq<string>)
    ensures |r| > 0
    ensures sep !in s ==> r == [s]
    decreases |s|
  {
    if |s| == 0 then [""]
    else if s[0] == sep then [""] + Split(s[1..], sep)
    else
      var rest := Split(s[1..], sep);
      assert sep !in s ==> sep !in s[1..] && [s[0]] + s[1..] == s by {
        assert forall c :: c in s[1..] ==> c in s;
      }
      [[s[0]] + rest[0]] + rest[1..]
  }

  /** Splitting a line that does not hold the separator, followed by more text. */
  lemma {:induction false} SplitPrefix(line: string, sep: char, rest: string)
    requires sep !in line
    ensures Split(line + [sep] + rest, sep) == [line] + Split(rest, sep)
    decreases |line|
  {
    if |line| == 0 {
      assert line + [sep] + rest == [sep] + rest;
      assert ([sep] + rest)[1..] == rest;
    } else {
      var s := line + [sep] + rest;
      SplitPrefix(line[1..], sep, rest);
      assert s[0] == line[0] && s[1..] == line[1..] + [sep] + rest;
      var tail := Split(s[1..], sep);
      assert tail[0] == line[1..] && tail[1..] == Split(rest, sep);
      assert [line[0]] + line[1..] == line;
    }
  }

  /** `join` and `split` are inverse when no line holds the separator. */
  lemma {:induction false} SplitJoin(lines: seq<string>, sep: char)
    requires |lines| > 0
    requires forall i :: 0 <= i < |lines| ==> sep !in lines[i]
    ensures Split(Join(lines, sep), sep) == lines
  {
    if |lines| > 1 {
      SplitJoin(lines[1..], sep);
      SplitPrefix(lines[0], sep, Join(lines[1..], sep));
      assert lines == [lines[0]] + lines[1..];
    }
  }
}
