/** The string operations the repository layer relies on: `String.prototype.split`
    on one character, `String.prototype.includes`, and the decimal rendering
    of an issue number inside a template literal. */
module Text {

  /** `s.split(sep)`: the pieces between occurrences of `sep`, in order. There
      is always at least one piece and no piece contains the separator. */
  function Split(s: string, sep: char): (parts: seq<string>)
    ensures |parts| >= 1
    ensures forall i :: 0 <= i < |parts| ==> sep !in parts[i]
    decreases |s|
  {
    if s == [] then [""]
    else
      var rest := Split(s[1..], sep);
      if s[0] == sep then [""] + rest
      else [[s[0]] + rest[0]] + rest[1..]
  }

  /** `parts.join(sep)`, the inverse of `Split`. */
  function Join(parts: seq<string>, sep: char): string
    requires |parts| >= 1
  {
    if |parts| == 1 then parts[0] else parts[0] + [sep] + Join(parts[1..], sep)
  }

  lemma {:induction false} JoinConsFirst(c: char, parts: seq<string>, sep: char)
    requires |parts| >= 1
    ensures Join([[c] + parts[0]] + parts[1..], sep) == [c] + Join(parts, sep)
  {
    var q := [[c] + parts[0]] + parts[1..];
    assert q[1..] == parts[1..];
  }

  /** The join begins with the first piece, followed by the separator when
      there are more pieces. */
  lemma JoinStartsWithFirst(parts: seq<string>, sep: char)
    requires |parts| >= 1
    ensures parts[0] <= Join(parts, sep)
    ensures |parts| > 1 ==> Join(parts, sep) == parts[0] + [sep] + Join(parts[1..], sep)
    ensures |parts| > 1 ==> |parts[0]| < |Join(parts, sep)| && Join(parts, sep)[|parts[0]|] == sep
    ensures |parts| == 1 ==> Join(parts, sep) == parts[0]
  {
  }

  /** A string with no separator splits into one piece, and only such a string does. */
  lemma SinglePieceIffNoSeparator(s: string, sep: char)
    ensures |Split(s, sep)| == 1 <==> sep !in s
  {
    if sep !in s {
      SplitWithoutSeparator(s, sep);
    } else {
      JoinSplit(s, sep);
    }
  }

  /** Joining the pieces of a split gives the original string back. */
  lemma {:induction false} JoinSplit(s: string, sep: char)
    ensures Join(Split(s, sep), sep) == s
    decreases |s|
  {
    if s != [] {
      var rest := Split(s[1..], sep);
      JoinSplit(s[1..], sep);
      if s[0] == sep {
        assert ([""] + rest)[1..] == rest;
      } else {
        JoinConsFirst(s[0], rest, sep);
      }
      assert s == [s[0]] + s[1..];
    }
  }

  /** A string without the separator is a single piece. */
  lemma {:induction false} SplitWithoutSeparator(s: string, sep: char)
    requires sep !in s
    ensures Split(s, sep) == [s]
    decreases |s|
  {
    if s != [] {
      assert sep !in s[1..];
      SplitWithoutSeparator(s[1..], sep);
      assert s[0] != sep;
      assert [s[0]] + s[1..] == s;
    }
  }

  /** Splitting `a + sep + t`, where `a` holds no separator, yields `a` first. */
  lemma {:induction false} SplitAfterPiece(a: string, sep: char, t: string)
    requires sep !in a
    ensures Split(a + [sep] + t, sep) == [a] + Split(t, sep)
    decreases |a|
  {
    var s := a + [sep] + t;
    if a == [] {
      assert s[1..] == t;
    } else {
      assert s[1..] == a[1..] + [sep] + t;
      assert sep !in a[1..];
      SplitAfterPiece(a[1..], sep, t);
      assert [a[0]] + a[1..] == a;
    }
  }

  /** Splitting a join of separator-free pieces gives those pieces back. */
  lemma {:induction false} SplitJoin(parts: seq<string>, sep: char)
    requires |parts| >= 1
    requires forall i :: 0 <= i < |parts| ==> sep !in parts[i]
    ensures Split(Join(parts, sep), sep) == parts
    decreases |parts|
  {
    if |parts| == 1 {
      SplitWithoutSeparator(parts[0], sep);
    } else {
      SplitJoin(parts[1..], sep);
      SplitAfterPiece(parts[0], sep, Join(parts[1..], sep));
      assert [parts[0]] + parts[1..] == parts;
    }
  }

  /** `m` occurs in `s` starting at index `i`. */
  ghost predicate OccursAt(s: string, m: string, i: int) {
    0 <= i && i + |m| <= |s| && s[i..i + |m|] == m
  }

  /** `s.includes(m)`: tries every start position from the left. */
  predicate Includes(s: string, m: string)
    decreases |s|
  {
    m <= s || (s != [] && Includes(s[1..], m))
  }

  /** Dropping the first character moves every occurrence one place left. */
  lemma ShiftOccurs(s: string, m: string, i: int)
    requires s != [] && 1 <= i
    ensures OccursAt(s, m, i) <==> OccursAt(s[1..], m, i - 1)
  {
    if i + |m| <= |s| {
      assert s[1..][i - 1..i - 1 + |m|] == s[i..i + |m|];
    }
  }

  /** `Includes` holds exactly when the marker occurs somewhere in the string;
      in particular the empty marker occurs in every string. */
  lemma {:induction false} IncludesIffOccurs(s: string, m: string)
    ensures Includes(s, m) <==> exists i :: OccursAt(s, m, i)
    decreases |s|
  {
    if m <= s {
      assert OccursAt(s, m, 0);
    } else if s == [] {
    } else {
      IncludesIffOccurs(s[1..], m);
      if Includes(s[1..], m) {
        var i :| OccursAt(s[1..], m, i);
        ShiftOccurs(s, m, i + 1);
      } else {
        forall i | OccursAt(s, m, i) ensures false {
          if i != 0 {
            ShiftOccurs(s, m, i);
          }
        }
      }
    }
  }

  predicate IsDigits(d: string) {
    forall i :: 0 <= i < |d| ==> '0' <= d[i] <= '9'
  }

  /** The decimal text of a natural number, as `${n}` renders it. */
  function Decimal(n: nat): (d: string)
    ensures |d| >= 1 && IsDigits(d)
  {
    if n < 10 then [DigitChar(n)] else Decimal(n / 10) + [DigitChar(n % 10)]
  }

  function DigitChar(k: nat): (c: char)
    requires k < 10
    ensures '0' <= c <= '9' && (c as int) - ('0' as int) == k
  {
    ('0' as int + k) as char
  }

  /** The number a string of digits denotes. */
  function DecimalValue(d: string): nat
    requires IsDigits(d)
  {
    if d == [] then 0 else DecimalValue(d[..|d| - 1]) * 10 + ((d[|d| - 1] as int) - ('0' as int))
  }

  /** Reading the decimal text back gives the number: the rendering is injective. */
  lemma {:induction false} DecimalRoundTrip(n: nat)
    ensures DecimalValue(Decimal(n)) == n
  {
    if n >= 10 {
      DecimalRoundTrip(n / 10);
      var d := Decimal(n);
      assert d[..|d| - 1] == Decimal(n / 10);
    }
  }

  lemma DecimalInjective(m: nat, n: nat)
    requires Decimal(m) == Decimal(n)
    ensures m == n
  {
    DecimalRoundTrip(m);
    DecimalRoundTrip(n);
  }
}
