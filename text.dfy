/** The two string operations the backend relies on: Python's `str.split` with a
    one-character separator, and the decimal rendering of a natural number that
    an f-string produces. */
module Text {

  /** `s.split(sep)`: the pieces of `s` between occurrences of `sep`, in order;
      an empty string and a trailing separator both give an empty piece. */
  function Split(s: string, sep: char): (parts: seq<string>)
    ensures |parts| >= 1
    decreases |s|
  {
    if |s| == 0 then [""]
    else
      var rest := Split(s[1..], sep);
      if s[0] == sep then [""] + rest
      else [[s[0]] + rest[0]] + rest[1..]
  }

  /** `sep.join(parts)`. */
  function Join(parts: seq<string>, sep: char): string
    requires |parts| >= 1
    decreases |parts|
  {
    if |parts| == 1 then parts[0] else parts[0] + [sep] + Join(parts[1..], sep)
  }

  /** Splitting loses nothing: joining the pieces back gives the string, and no
      piece contains the separator. */
  lemma {:induction false} SplitJoin(s: string, sep: char)
    ensures Join(Split(s, sep), sep) == s
    ensures forall p | p in Split(s, sep) :: sep !in p
    decreases |s|
  {
    if |s| > 0 {
      var rest := Split(s[1..], sep);
      SplitJoin(s[1..], sep);
      assert s == [s[0]] + s[1..];
      if s[0] != sep {
        assert rest == [rest[0]] + rest[1..];
        if |rest| > 1 {
          assert Join(rest, sep) == rest[0] + [sep] + Join(rest[1..], sep);
        }
        forall p | p in Split(s, sep) ensures sep !in p {
          if p != [s[0]] + rest[0] {
            assert p in rest;
          }
        }
      }
    }
  }

  /** A string holding the separator splits into at least two pieces. */
  lemma SplitAtSeparator(s: string, sep: char)
    requires sep in s
    ensures |Split(s, sep)| >= 2
  {
    var parts := Split(s, sep);
    SplitJoin(s, sep);
    if |parts| == 1 {
      assert false;
    }
  }

  /** A string free of the separator splits into itself alone. */
  lemma {:induction false} SplitWithoutSeparator(s: string, sep: char)
    requires sep !in s
    ensures Split(s, sep) == [s]
    decreases |s|
  {
    if |s| > 0 {
      SplitWithoutSeparator(s[1..], sep);
      assert [s[0]] + s[1..] == s;
    }
  }

  /** Splitting `a + sep + t` with `a` free of the separator cuts off exactly `a`. */
  lemma {:induction false} SplitAtFirstSeparator(a: string, sep: char, t: string)
    requires sep !in a
    ensures Split(a + [sep] + t, sep) == [a] + Split(t, sep)
    decreases |a|
  {
    if |a| == 0 {
      assert a + [sep] + t == [sep] + t;
      assert ([sep] + t)[1..] == t;
    } else {
      assert (a + [sep] + t)[1..] == a[1..] + [sep] + t;
      SplitAtFirstSeparator(a[1..], sep, t);
      assert [a[0]] + a[1..] == a;
    }
  }

  /** Joining separator-free pieces and splitting again gives the pieces back. */
  lemma {:induction false} JoinSplit(parts: seq<string>, sep: char)
    requires |parts| >= 1
    requires forall i | 0 <= i < |parts| :: sep !in parts[i]
    ensures Split(Join(parts, sep), sep) == parts
    decreases |parts|
  {
    if |parts| == 1 {
      SplitWithoutSeparator(parts[0], sep);
    } else {
      JoinSplit(parts[1..], sep);
      SplitAtFirstSeparator(parts[0], sep, Join(parts[1..], sep));
      assert [parts[0]] + parts[1..] == parts;
    }
  }

  /** The character of a decimal digit. */
  function Digit(d: nat): char
    requires d < 10
  {
    (48 + d) as char
  }

  /** The decimal rendering of `n`, as `f"{n}"` writes an int. */
  function DecimalString(n: nat): (s: string)
    ensures |s| >= 1
    ensures n >= 10 ==> |s| >= 2
    ensures forall i | 0 <= i < |s| :: '0' <= s[i] <= '9'
  {
    if n < 10 then [Digit(n)] else DecimalString(n / 10) + [Digit(n % 10)]
  }

  /** Different numbers have different decimal renderings. */
  lemma {:induction false} DecimalStringInjective(a: nat, b: nat)
    requires DecimalString(a) == DecimalString(b)
    ensures a == b
    decreases a
  {
    var sa, sb := DecimalString(a), DecimalString(b);
    if a >= 10 && b >= 10 {
      assert sa[|sa| - 1] == Digit(a % 10) && sb[|sb| - 1] == Digit(b % 10);
      assert sa[..|sa| - 1] == DecimalString(a / 10);
      assert sb[..|sb| - 1] == DecimalString(b / 10);
      DecimalStringInjective(a / 10, b / 10);
    } else if a < 10 && b < 10 {
      assert sa[0] == Digit(a) && sb[0] == Digit(b);
    }
  }
}
