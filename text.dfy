/** The few Python string operations the core relies on, with their properties. */
module Text {

  /** str.split(sep) for a one-character separator: the pieces between consecutive separators. */
  function Split(s: string, sep: char): (parts: seq<string>)
    ensures |parts| >= 1
    ensures forall i :: 0 <= i < |parts| ==> sep !in parts[i]
    decreases |s|
  {
    if s == [] then [""]
    else
      var rest := Split(s[1..], sep);
      if s[0] == sep then [""] + rest
      else [[s[0]] + rest[0]] + rest[1..]
  }

  /** sep.join(parts). */
  function Join(parts: seq<string>, sep: string): string
    decreases |parts|
  {
    if |parts| == 0 then ""
    else if |parts| == 1 then parts[0]
    else parts[0] + sep + Join(parts[1..], sep)
  }

  /** The sum of the lengths of the parts. */
  function TotalLength(parts: seq<string>): nat
    decreases |parts|
  {
    if parts == [] then 0 else |parts[0]| + TotalLength(parts[1..])
  }

  lemma {:induction false} SplitWithout(s: string, sep: char)
    requires sep !in s
    ensures Split(s, sep) == [s]
    decreases |s|
  {
    if s != [] {
      SplitWithout(s[1..], sep);
      assert [s[0]] + s[1..] == s;
    }
  }

  lemma {:induction false} SplitWith(s: string, sep: char)
    requires sep in s
    ensures |Split(s, sep)| >= 2
    decreases |s|
  {
    if s[0] != sep {
      SplitWith(s[1..], sep);
    }
  }

  /** A string splits into a single piece exactly when it holds no separator. */
  lemma SplitSingleIff(s: string, sep: char)
    ensures |Split(s, sep)| == 1 <==> sep !in s
  {
    if sep in s { SplitWith(s, sep); } else { SplitWithout(s, sep); }
  }

  lemma {:induction false} SplitAfterSeparator(a: string, sep: char, b: string)
    requires sep !in a
    ensures Split(a + [sep] + b, sep) == [a] + Split(b, sep)
    decreases |a|
  {
    var s := a + [sep] + b;
    if a == [] {
      assert s[1..] == b;
    } else {
      assert s[1..] == a[1..] + [sep] + b;
      SplitAfterSeparator(a[1..], sep, b);
      assert [a[0]] + a[1..] == a;
    }
  }

  /** Splitting a join on a separator the parts do not contain gives the parts back. */
  lemma {:induction false} SplitJoin(parts: seq<string>, sep: char)
    requires |parts| >= 1
    requires forall i :: 0 <= i < |parts| ==> sep !in parts[i]
    ensures Split(Join(parts, [sep]), sep) == parts
    decreases |parts|
  {
    if |parts| == 1 {
      SplitWithout(parts[0], sep);
    } else {
      SplitJoin(parts[1..], sep);
      SplitAfterSeparator(parts[0], sep, Join(parts[1..], [sep]));
      assert [parts[0]] + parts[1..] == parts;
    }
  }

  /** Joining the pieces of a split with the same separator gives the string back. */
  lemma {:induction false} JoinSplit(s: string, sep: char)
    ensures Join(Split(s, sep), [sep]) == s
    decreases |s|
  {
    if s != [] {
      JoinSplit(s[1..], sep);
      var rest := Split(s[1..], sep);
      if s[0] == sep {
        assert ([""] + rest)[1..] == rest;
      } else {
        var parts := [[s[0]] + rest[0]] + rest[1..];
        if |rest| > 1 {
          assert parts[1..] == rest[1..];
          assert Join(rest, [sep]) == rest[0] + [sep] + Join(rest[1..], [sep]);
        }
      }
      assert [s[0]] + s[1..] == s;
    }
  }

  /** A join with a one-character separator adds one character between each pair of neighbours. */
  lemma {:induction false} JoinLength(parts: seq<string>, sep: char)
    requires |parts| >= 1
    ensures |Join(parts, [sep])| == TotalLength(parts) + |parts| - 1
    decreases |parts|
  {
    if |parts| > 1 {
      JoinLength(parts[1..], sep);
    } else {
      assert parts[1..] == [];
    }
  }

  /** The total length of the first i parts, counted from the second part on. */
  lemma TotalLengthPrefix(parts: seq<string>, i: nat)
    requires 0 < i <= |parts|
    ensures TotalLength(parts[..i]) == |parts[0]| + TotalLength(parts[1..][..i - 1])
  {
    assert parts[..i][1..] == parts[1..][..i - 1];
  }

  /** A slice of the second half of a concatenation. */
  lemma SliceOfConcat(x: string, y: string, a: nat, b: nat)
    requires a <= b <= |y|
    ensures (x + y)[|x| + a..|x| + b] == y[a..b]
    ensures b < |y| ==> (x + y)[|x| + b] == y[b]
  {
  }

  /**
   * Where part i sits in a join with a one-character separator: it starts after the parts before
   * it and one separator per part before it, and a separator follows it unless it is the last.
   */
  lemma {:induction false} JoinPlacement(parts: seq<string>, sep: char, i: nat)
    requires i < |parts|
    ensures var start := TotalLength(parts[..i]) + i;
      start + |parts[i]| <= |Join(parts, [sep])|
      && Join(parts, [sep])[start..start + |parts[i]|] == parts[i]
      && (i < |parts| - 1 ==> start + |parts[i]| < |Join(parts, [sep])| && Join(parts, [sep])[start + |parts[i]|] == sep)
    decreases i
  {
    var joined := Join(parts, [sep]);
    assert parts[..0] == [];
    if |parts| > 1 {
      var head := parts[0] + [sep];
      var tail := Join(parts[1..], [sep]);
      assert joined == head + tail;
      if i == 0 {
        assert joined[..|parts[0]|] == parts[0];
        assert joined[|parts[0]|] == sep;
      } else {
        JoinPlacement(parts[1..], sep, i - 1);
        TotalLengthPrefix(parts, i);
        var inner := TotalLength(parts[1..][..i - 1]) + (i - 1);
        assert parts[1..][i - 1] == parts[i];
        SliceOfConcat(head, tail, inner, inner + |parts[i]|);
      }
    }
  }

  /** The first two parts of a join of at least two parts, and what follows the second. */
  lemma JoinSecond(parts: seq<string>, sep: char)
    requires |parts| >= 2
    ensures Join(parts, [sep])
            == parts[0] + [sep] + parts[1] + (if |parts| == 2 then [] else [sep] + Join(parts[2..], [sep]))
  {
    var rest := parts[1..];
    assert rest[0] == parts[1] && rest[1..] == parts[2..];
    if |parts| == 2 {
      assert Join(rest, [sep]) == parts[1];
    } else {
      assert Join(rest, [sep]) == parts[1] + [sep] + Join(parts[2..], [sep]);
    }
  }

  /**
   * piece starts at index at of s, right after the first sep of s, and is followed by another
   * sep or by the end of s.
   */
  predicate SecondPieceAt(s: string, sep: char, piece: string, at: nat)
  {
    1 <= at && at + |piece| <= |s| && sep !in s[..at - 1] && s[at - 1] == sep
    && s[at..at + |piece|] == piece && (at + |piece| == |s| || s[at + |piece|] == sep)
  }

  /** With a separator present, the second piece is what lies between the first separator and the next one, or the end. */
  lemma SplitSecond(s: string, sep: char)
    requires sep in s
    ensures |Split(s, sep)| >= 2
    ensures SecondPieceAt(s, sep, Split(s, sep)[1], |Split(s, sep)[0]| + 1)
  {
    var parts := Split(s, sep);
    SplitWith(s, sep);
    JoinSplit(s, sep);
    JoinSecond(parts, sep);
    var after: string := if |parts| == 2 then [] else [sep] + Join(parts[2..], [sep]);
    var before := parts[0];
    var at := |before| + 1;
    assert s == before + [sep] + parts[1] + after;
    assert s[..at - 1] == before && s[at - 1] == sep;
    assert s[at..at + |parts[1]|] == parts[1];
    assert at + |parts[1]| < |s| ==> s[at + |parts[1]|] == after[0] == sep;
  }

  /** str.replace(target, replacement) for one character by one character. */
  function Replace(s: string, target: char, replacement: char): (r: string)
    ensures |r| == |s|
    ensures forall i :: 0 <= i < |s| ==> r[i] == (if s[i] == target then replacement else s[i])
    decreases |s|
  {
    if s == [] then []
    else [if s[0] == target then replacement else s[0]] + Replace(s[1..], target, replacement)
  }

  /** str.endswith(suffix). */
  predicate EndsWith(s: string, suffix: string)
  {
    |suffix| <= |s| && s[|s| - |suffix|..] == suffix
  }

  predicate IsHexDigit(c: char)
  {
    '0' <= c <= '9' || 'a' <= c <= 'f'
  }

  /** Lower-case hexadecimal, as hashlib's hexdigest() and uuid's .hex produce. */
  predicate IsLowerHex(s: string)
  {
    forall i :: 0 <= i < |s| ==> IsHexDigit(s[i])
  }

  /** The characters str.strip() removes: Python's whitespace (str.isspace). */
  predicate IsSpace(c: char)
  {
    '\t' <= c <= '\r' || '\U{1c}' <= c <= '\U{1f}' || c == ' ' || c == '\U{85}' || c == '\U{a0}'
    || c == '\U{1680}' || '\U{2000}' <= c <= '\U{200a}' || c == '\U{2028}' || c == '\U{2029}'
    || c == '\U{202f}' || c == '\U{205f}' || c == '\U{3000}'
  }

  function TrimStart(s: string): string
    decreases |s|
  {
    if s != [] && IsSpace(s[0]) then TrimStart(s[1..]) else s
  }

  function TrimEnd(s: string): string
    decreases |s|
  {
    if s != [] && IsSpace(s[|s| - 1]) then TrimEnd(s[..|s| - 1]) else s
  }

  /** str.strip() with no argument. */
  function Strip(s: string): string
  {
    TrimEnd(TrimStart(s))
  }

  lemma {:induction false} TrimStartShape(s: string)
    ensures TrimStart(s) == [] <==> forall i :: 0 <= i < |s| ==> IsSpace(s[i])
    ensures TrimStart(s) != [] ==> !IsSpace(TrimStart(s)[0])
    decreases |s|
  {
    if s != [] && IsSpace(s[0]) {
      TrimStartShape(s[1..]);
      assert forall i :: 1 <= i < |s| ==> s[i] == s[1..][i - 1];
    }
  }

  lemma {:induction false} TrimEndKeepsHead(s: string)
    requires s != [] && !IsSpace(s[0])
    ensures TrimEnd(s) != []
    decreases |s|
  {
    if IsSpace(s[|s| - 1]) {
      TrimEndKeepsHead(s[..|s| - 1]);
    }
  }

  /** str.strip() leaves nothing exactly when every character is whitespace. */
  lemma StripEmptyIff(s: string)
    ensures Strip(s) == [] <==> forall i :: 0 <= i < |s| ==> IsSpace(s[i])
  {
    TrimStartShape(s);
    if TrimStart(s) != [] {
      TrimEndKeepsHead(TrimStart(s));
    }
  }
}
