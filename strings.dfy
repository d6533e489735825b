/** Text helpers with Qt's QString semantics: split on one separator character
    (empty parts kept), join, and decimal rendering of port numbers. */
module Strings {

  /** QString::split(sep) with the default KeepEmptyParts behaviour:
      the empty string yields one empty part, and every separator starts a new part. */
  function Split(s: string, sep: char): (parts: seq<string>)
    ensures |parts| >= 1
    ensures forall i :: 0 <= i < |parts| ==> sep !in parts[i]
    decreases |s|
  {
    if s == [] then [[]]
    else
      var rest := Split(s[1..], sep);
      if s[0] == sep then [[]] + rest
      else [[s[0]] + rest[0]] + rest[1..]
  }

  /** QStringList::join(sep). With a one-character separator that no part holds, Split gives the
      parts back (with JoinSplit below, Split and Join are inverse). */
  function Join(parts: seq<string>, sep: string): (r: string)
    ensures |sep| == 1 && |parts| >= 1 && (forall i :: 0 <= i < |parts| ==> sep[0] !in parts[i]) ==>
              Split(r, sep[0]) == parts
    decreases |parts|
  {
    if |parts| == 0 then []
    else if |parts| == 1 then
      SplitWhole(parts[0], sep);
      parts[0]
    else
      var rest := Join(parts[1..], sep);
      assert forall i :: 0 <= i < |parts[1..]| ==> parts[1..][i] == parts[i + 1];
      SplitFirst(parts[0], rest, sep, parts[1..]);
      parts[0] + sep + rest
  }

  /** A part without the separator splits into itself. */
  lemma SplitWhole(p: string, sep: string)
    ensures |sep| == 1 && sep[0] !in p ==> Split(p, sep[0]) == [p]
  {
    if |sep| == 1 && sep[0] !in p {
      SplitNoSep(p, sep[0]);
    }
  }

  /** A separator after a part without one splits right after that part. */
  lemma SplitFirst(p: string, rest: string, sep: string, tail: seq<string>)
    ensures |sep| == 1 && sep[0] !in p && Split(rest, sep[0]) == tail ==> Split(p + sep + rest, sep[0]) == [p] + tail
  {
    if |sep| == 1 && sep[0] !in p {
      assert sep == [sep[0]];
      SplitAt(p, rest, sep[0]);
      SplitNoSep(p, sep[0]);
    }
  }

  /** Number of occurrences of `c` in `s`. */
  function Count(s: string, c: char): nat
  {
    if s == [] then 0 else (if s[0] == c then 1 else 0) + Count(s[1..], c)
  }

  /** `s` with every occurrence of `c` taken out. */
  function Without(s: string, c: char): string
  {
    if s == [] then [] else (if s[0] == c then [] else [s[0]]) + Without(s[1..], c)
  }

  predicate IsDigit(c: char)
  {
    '0' <= c <= '9'
  }

  /** The regular expression `\d*` matches the whole of `s`. */
  predicate AllDigits(s: string)
  {
    forall i :: 0 <= i < |s| ==> IsDigit(s[i])
  }

  /** Splitting and joining back with the same separator is the identity. */
  lemma {:induction false} JoinSplit(s: string, sep: char)
    ensures Join(Split(s, sep), [sep]) == s
    decreases |s|
  {
    if s != [] {
      var rest := Split(s[1..], sep);
      JoinSplit(s[1..], sep);
      if s[0] == sep {
        assert Split(s, sep) == [[]] + rest;
        assert Join([[]] + rest, [sep]) == [] + [sep] + Join(rest, [sep]);
      } else {
        var parts := Split(s, sep);
        assert parts == [[s[0]] + rest[0]] + rest[1..];
        if |rest| == 1 {
          assert Join(rest, [sep]) == rest[0];
          assert Join(parts, [sep]) == [s[0]] + rest[0];
        } else {
          assert Join(rest, [sep]) == rest[0] + [sep] + Join(rest[1..], [sep]);
          assert parts[1..] == rest[1..];
          assert Join(parts, [sep]) == [s[0]] + rest[0] + [sep] + Join(rest[1..], [sep]);
        }
      }
    }
  }

  /** A string with no separator in it is a single part. */
  lemma {:induction false} SplitNoSep(s: string, sep: char)
    requires sep !in s
    ensures Split(s, sep) == [s]
    decreases |s|
  {
    if s != [] {
      assert sep !in s[1..] by {
        forall i | 0 <= i < |s[1..]| ensures s[1..][i] != sep { assert s[1..][i] == s[i + 1]; }
      }
      SplitNoSep(s[1..], sep);
      assert [s[0]] + s[1..] == s;
    }
  }

  /** One step of Split on a non-empty string. */
  lemma SplitCons(s: string, sep: char)
    requires s != []
    ensures Split(s, sep) == if s[0] == sep then [[]] + Split(s[1..], sep)
                             else [[s[0]] + Split(s[1..], sep)[0]] + Split(s[1..], sep)[1..]
  {
  }

  /** A separator between `a` and `b` splits exactly there. */
  lemma {:induction false} SplitAt(a: string, b: string, sep: char)
    ensures Split(a + [sep] + b, sep) == Split(a, sep) + Split(b, sep)
    decreases |a|
  {
    var s := a + [sep] + b;
    if a == [] {
      assert s[0] == sep && s[1..] == b;
      SplitCons(s, sep);
    } else {
      assert s[0] == a[0] && s[1..] == a[1..] + [sep] + b;
      SplitCons(s, sep);
      SplitCons(a, sep);
      SplitAt(a[1..], b, sep);
      StepAppend(a[0], sep, Split(a[1..], sep), Split(b, sep));
    }
  }

  /** One Split step distributes over appending further parts. */
  lemma StepAppend(c: char, sep: char, ra: seq<string>, rb: seq<string>)
    requires |ra| >= 1
    ensures (if c == sep then [[]] + (ra + rb) else [[c] + (ra + rb)[0]] + (ra + rb)[1..]) ==
            (if c == sep then [[]] + ra else [[c] + ra[0]] + ra[1..]) + rb
  {
    if c != sep {
      assert (ra + rb)[0] == ra[0];
      assert (ra + rb)[1..] == ra[1..] + rb;
    }
  }

  /** The number of parts is one more than the number of separators. */
  lemma {:induction false} SplitLength(s: string, sep: char)
    ensures |Split(s, sep)| == Count(s, sep) + 1
    decreases |s|
  {
    if s != [] {
      SplitLength(s[1..], sep);
    }
  }

  /** A concatenation is all digits exactly when both halves are. */
  lemma AllDigitsAppend(x: string, y: string)
    ensures AllDigits(x + y) <==> AllDigits(x) && AllDigits(y)
  {
    if AllDigits(x) && AllDigits(y) {
      forall i | 0 <= i < |x + y| ensures IsDigit((x + y)[i]) {
        if i < |x| { assert (x + y)[i] == x[i]; } else { assert (x + y)[i] == y[i - |x|]; }
      }
    }
    if AllDigits(x + y) {
      forall i | 0 <= i < |x| ensures IsDigit(x[i]) { assert (x + y)[i] == x[i]; }
      forall i | 0 <= i < |y| ensures IsDigit(y[i]) { assert (x + y)[|x| + i] == y[i]; }
    }
  }

  /** Joining with the empty string: the first part followed by the join of the rest. */
  lemma JoinEmptyCons(p: string, ps: seq<string>)
    ensures Join([p] + ps, []) == p + Join(ps, [])
  {
    if |ps| > 0 {
      assert ([p] + ps)[1..] == ps;
    }
  }

  /** Joining the parts with the empty string removes the separators. */
  lemma {:induction false} ConcatSplit(s: string, sep: char)
    ensures Join(Split(s, sep), []) == Without(s, sep)
    decreases |s|
  {
    if s != [] {
      var rest := Split(s[1..], sep);
      SplitCons(s, sep);
      ConcatSplit(s[1..], sep);
      if s[0] == sep {
        assert Split(s, sep) == [[]] + rest;
        assert Without(s, sep) == Without(s[1..], sep);
        JoinEmptyCons([], rest);
      } else {
        var head, tail := rest[0], rest[1..];
        assert rest == [head] + tail;
        assert Split(s, sep) == [[s[0]] + head] + tail;
        assert Without(s, sep) == [s[0]] + Without(s[1..], sep);
        JoinEmptyCons([s[0]] + head, tail);
        JoinEmptyCons(head, tail);
      }
    }
  }

  /** The digits-only test on `s` without `c` is the test "every character is `c` or a digit". */
  lemma {:induction false} AllDigitsWithout(s: string, c: char)
    ensures AllDigits(Without(s, c)) <==> forall i :: 0 <= i < |s| ==> s[i] == c || IsDigit(s[i])
    decreases |s|
  {
    if s != [] {
      AllDigitsWithout(s[1..], c);
      var head := if s[0] == c then [] else [s[0]];
      var w := head + Without(s[1..], c);
      assert Without(s, c) == w;
      if AllDigits(w) {
        forall i | 0 <= i < |s| ensures s[i] == c || IsDigit(s[i]) {
          if i == 0 {
            if s[0] != c { assert w[0] == s[0]; }
          } else {
            assert s[1..][i - 1] == s[i];
            assert AllDigits(Without(s[1..], c)) by {
              forall k | 0 <= k < |Without(s[1..], c)| ensures IsDigit(Without(s[1..], c)[k]) {
                assert w[|head| + k] == Without(s[1..], c)[k];
              }
            }
          }
        }
      }
      if forall i :: 0 <= i < |s| ==> s[i] == c || IsDigit(s[i]) {
        assert forall i :: 0 <= i < |s[1..]| ==> s[1..][i] == c || IsDigit(s[1..][i]) by {
          forall i | 0 <= i < |s[1..]| ensures s[1..][i] == c || IsDigit(s[1..][i]) { assert s[1..][i] == s[i + 1]; }
        }
        forall k | 0 <= k < |w| ensures IsDigit(w[k]) {
          if k >= |head| { assert w[k] == Without(s[1..], c)[k - |head|]; }
        }
      }
    }
  }

  /** The character of a decimal digit value. */
  function DigitChar(d: nat): (c: char)
    requires d < 10
    ensures IsDigit(c)
  {
    ['0', '1', '2', '3', '4', '5', '6', '7', '8', '9'][d]
  }

  /** The value of a decimal digit character. */
  function DigitValue(c: char): nat
    requires IsDigit(c)
  {
    (c as int) - ('0' as int)
  }

  /** Decimal rendering of a number without leading zeros (QString::arg of an unsigned value). */
  function Decimal(n: nat): (s: string)
    ensures |s| >= 1 && AllDigits(s)
    ensures n >= 1 ==> s[0] != '0'
    ensures |s| > 1 ==> s[0] != '0'
    decreases n
  {
    if n < 10 then [DigitChar(n)] else Decimal(n / 10) + [DigitChar(n % 10)]
  }

  /** Value of a string of decimal digits, most significant first. */
  function DecimalValue(s: string): nat
    requires AllDigits(s)
    decreases |s|
  {
    if s == [] then 0 else 10 * DecimalValue(s[..|s| - 1]) + DigitValue(s[|s| - 1])
  }

  /** Reading back a rendered number gives the number. */
  lemma {:induction false} DecimalRoundTrip(n: nat)
    ensures DecimalValue(Decimal(n)) == n
    decreases n
  {
    var s := Decimal(n);
    if n < 10 {
      assert s[..0] == [];
    } else {
      DecimalRoundTrip(n / 10);
      assert s[..|s| - 1] == Decimal(n / 10);
    }
  }
}
