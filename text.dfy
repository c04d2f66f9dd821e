/** String helpers the SSH session code relies on: splitting and joining on the
    carriage-return/line-feed separator (Python's `s.split('\r\n')` and
    `'\r\n'.join(parts)`), substring search (`'--More--' in line`) and the
    concatenation of `readlines()` output (`''.join(lines)`). */
module Text {

  const CrLf: string := "\r\n"

  /** True when `s` holds `sub` as a contiguous substring. */
  predicate Contains(s: string, sub: string) {
    exists i | 0 <= i <= |s| - |sub| :: OccursAt(s, sub, i)
  }

  /** True when `sub` occurs in `s` starting at index `i`. */
  predicate OccursAt(s: string, sub: string, i: int) {
    0 <= i <= |s| - |sub| && s[i..i + |sub|] == sub
  }

  /** True when a carriage return immediately followed by a line feed starts at `i`. */
  predicate CrLfAt(s: string, i: int) {
    0 <= i && i + 1 < |s| && s[i] == '\r' && s[i + 1] == '\n'
  }

  ghost predicate HasCrLf(s: string) {
    exists i :: CrLfAt(s, i)
  }

  /** Python's `s.split('\r\n')`: the pieces between the non-overlapping occurrences of
      the separator, scanned left to right. There is always at least one piece. */
  function Split(s: string): (r: seq<string>)
    ensures |r| >= 1
    decreases |s|
  {
    if |s| < 2 then [s]
    else if s[0] == '\r' && s[1] == '\n' then [""] + Split(s[2..])
    else
      var rest := Split(s[1..]);
      [[s[0]] + rest[0]] + rest[1..]
  }

  /** Python's `'\r\n'.join(parts)`. */
  function Join(parts: seq<string>): (r: string)
    decreases |parts|
  {
    if |parts| == 0 then ""
    else if |parts| == 1 then parts[0]
    else parts[0] + CrLf + Join(parts[1..])
  }

  /** Python's `''.join(lines)`, used on the lists `readlines()` returns. */
  function Concat(lines: seq<string>): (r: string)
    ensures |r| == SumLengths(lines)
    decreases |lines|
  {
    if |lines| == 0 then "" else lines[0] + Concat(lines[1..])
  }

  function SumLengths(lines: seq<string>): nat
    decreases |lines|
  {
    if |lines| == 0 then 0 else |lines[0]| + SumLengths(lines[1..])
  }

  /** Python's `str(n)` for a natural number: its decimal digits, most significant first. */
  function Decimal(n: nat): (r: string)
    ensures |r| >= 1 && forall i :: 0 <= i < |r| ==> '0' <= r[i] <= '9'
    decreases n
  {
    if n < 10 then [Digit(n)] else Decimal(n / 10) + [Digit(n % 10)]
  }

  function Digit(d: nat): (c: char)
    requires d < 10
    ensures '0' <= c <= '9'
  {
    (48 + d) as char
  }

  function Last<T>(s: seq<T>): T
    requires |s| >= 1
  {
    s[|s| - 1]
  }

  function DropLast<T>(s: seq<T>): seq<T>
    requires |s| >= 1
  {
    s[..|s| - 1]
  }

  /** Joining what was split gives back the original string. */
  lemma {:induction false} JoinSplit(s: string)
    ensures Join(Split(s)) == s
    decreases |s|
  {
    if |s| < 2 {
    } else if s[0] == '\r' && s[1] == '\n' {
      JoinSplit(s[2..]);
      var rest := Split(s[2..]);
      assert Split(s) == [""] + rest;
      assert s == "" + CrLf + s[2..];
    } else {
      JoinSplit(s[1..]);
      var rest := Split(s[1..]);
      var r := [[s[0]] + rest[0]] + rest[1..];
      assert Split(s) == r;
      if |rest| == 1 {
        assert Join(r) == [s[0]] + rest[0];
        assert rest[0] == s[1..];
      } else {
        assert r[1..] == rest[1..];
        assert Join(r) == [s[0]] + rest[0] + CrLf + Join(rest[1..]);
        assert Join(rest) == rest[0] + CrLf + Join(rest[1..]);
      }
      assert s == [s[0]] + s[1..];
    }
  }

  /** No piece of a split still holds the separator. */
  lemma {:induction false} SplitPiecesHaveNoCrLf(s: string)
    ensures forall k :: 0 <= k < |Split(s)| ==> !HasCrLf(Split(s)[k])
    decreases |s|
  {
    if |s| < 2 {
      assert Split(s) == [s];
      assert !HasCrLf(s) by {
        forall i ensures !CrLfAt(s, i) { }
      }
    } else if s[0] == '\r' && s[1] == '\n' {
      SplitPiecesHaveNoCrLf(s[2..]);
      assert !HasCrLf("") by {
        forall i ensures !CrLfAt("", i) { }
      }
      forall k | 0 <= k < |Split(s)| ensures !HasCrLf(Split(s)[k]) {
        if k > 0 {
          assert Split(s)[k] == Split(s[2..])[k - 1];
        }
      }
    } else {
      SplitPiecesHaveNoCrLf(s[1..]);
      var rest := Split(s[1..]);
      var head := [s[0]] + rest[0];
      assert !HasCrLf(rest[0]);
      assert !HasCrLf(head) by {
        forall i ensures !CrLfAt(head, i) {
          if i == 0 {
            FirstPieceStart(s[1..]);
            if |head| >= 2 {
              assert head[1] == s[1];
            }
          }
          if i > 0 && CrLfAt(head, i) {
            assert CrLfAt(rest[0], i - 1);
          }
        }
      }
      forall k | 0 <= k < |Split(s)| ensures !HasCrLf(Split(s)[k]) {
        if k > 0 {
          assert Split(s)[k] == rest[k];
        }
      }
    }
  }

  /** The first piece of a split is a prefix of the string. */
  lemma {:induction false} FirstPieceStart(s: string)
    ensures |Split(s)[0]| <= |s| && Split(s)[0] == s[..|Split(s)[0]|]
    decreases |s|
  {
    if |s| < 2 {
    } else if s[0] == '\r' && s[1] == '\n' {
    } else {
      FirstPieceStart(s[1..]);
    }
  }

  /** Splitting a join of separator-free pieces gives back the pieces. */
  lemma {:induction false} SplitJoin(parts: seq<string>)
    requires |parts| >= 1
    requires forall k :: 0 <= k < |parts| ==> !HasCrLf(parts[k])
    ensures Split(Join(parts)) == parts
    decreases |parts|
  {
    if |parts| == 1 {
      SplitNoCrLf(parts[0]);
    } else {
      SplitJoin(parts[1..]);
      SplitAcross(parts[0], Join(parts[1..]));
      SplitNoCrLf(parts[0]);
      assert parts == [parts[0]] + parts[1..];
    }
  }

  /** A string without the separator splits into itself alone. */
  lemma {:induction false} SplitNoCrLf(s: string)
    requires !HasCrLf(s)
    ensures Split(s) == [s]
    decreases |s|
  {
    if |s| >= 2 {
      assert !CrLfAt(s, 0);
      assert !HasCrLf(s[1..]) by {
        forall i ensures !CrLfAt(s[1..], i) {
          assert CrLfAt(s[1..], i) ==> CrLfAt(s, i + 1);
        }
      }
      SplitNoCrLf(s[1..]);
      assert [s[0]] + s[1..] == s;
    }
  }

  /** Splitting a string that starts with the separator. */
  lemma SplitAfterCrLf(t: string)
    ensures Split(CrLf + t) == [""] + Split(t)
  {
    assert (CrLf + t)[2..] == t;
  }

  /** Splitting a string whose first two characters are not the separator. */
  lemma SplitCons(c: char, t: string)
    requires |t| >= 1 && !(c == '\r' && t[0] == '\n')
    ensures Split([c] + t) == [[c] + Split(t)[0]] + Split(t)[1..]
  {
    assert ([c] + t)[1..] == t;
  }

  /** A separator placed between two strings splits them apart. */
  lemma {:induction false} SplitAcross(a: string, b: string)
    ensures Split(a + CrLf + b) == Split(a) + Split(b)
    decreases |a|
  {
    if |a| == 0 {
      assert a + CrLf + b == CrLf + b;
      SplitAfterCrLf(b);
    } else if |a| == 1 {
      SplitAcrossOne(a, b);
    } else if a[0] == '\r' && a[1] == '\n' {
      SplitAcross(a[2..], b);
      SplitAcrossCrLf(a, b);
    } else {
      SplitAcross(a[1..], b);
      SplitAcrossCons(a, b);
    }
  }

  lemma SplitAcrossOne(a: string, b: string)
    requires |a| == 1
    ensures Split(a + CrLf + b) == Split(a) + Split(b)
  {
    assert a + CrLf + b == [a[0]] + (CrLf + b);
    SplitCons(a[0], CrLf + b);
    SplitAfterCrLf(b);
    assert [a[0]] + "" == a;
  }

  lemma SplitAcrossCrLf(a: string, b: string)
    requires |a| >= 2 && a[0] == '\r' && a[1] == '\n'
    requires Split(a[2..] + CrLf + b) == Split(a[2..]) + Split(b)
    ensures Split(a + CrLf + b) == Split(a) + Split(b)
  {
    assert a == CrLf + a[2..];
    assert a + CrLf + b == CrLf + (a[2..] + CrLf + b);
    SplitAfterCrLf(a[2..]);
    SplitAfterCrLf(a[2..] + CrLf + b);
  }

  lemma SplitAcrossCons(a: string, b: string)
    requires |a| >= 2 && !(a[0] == '\r' && a[1] == '\n')
    requires Split(a[1..] + CrLf + b) == Split(a[1..]) + Split(b)
    ensures Split(a + CrLf + b) == Split(a) + Split(b)
  {
    var c, tail := a[0], a[1..];
    var t := tail + CrLf + b;
    var ra, rb := Split(tail), Split(b);
    assert a == [c] + tail;
    assert a + CrLf + b == [c] + t;
    assert t[0] == a[1];
    SplitCons(c, tail);
    assert Split(a) == [[c] + ra[0]] + ra[1..];
    SplitCons(c, t);
    assert Split(t) == ra + rb;
    assert (ra + rb)[1..] == ra[1..] + rb;
    assert Split([c] + t) == [[c] + ra[0]] + (ra[1..] + rb);
  }
}
