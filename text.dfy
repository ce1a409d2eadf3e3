/**
 * The pieces of Python's string machinery that the message handlers rely on:
 * `str.split` with a one-character separator, `int(s)` on a string (base 10)
 * and `str(n)` on an integer.
 */
module Text {

  datatype Option<+T> = None | Some(value: T)

  /** Position of the first occurrence of `c` in `s`. */
  function IndexOf(s: string, c: char): (i: nat)
    requires c in s
    ensures i < |s| && s[i] == c && c !in s[..i]
    decreases |s|
  {
    if s[0] == c then 0
    else
      assert s == [s[0]] + s[1..];
      var j := IndexOf(s[1..], c);
      assert s[..j + 1] == [s[0]] + s[1..][..j];
      j + 1
  }

  /** `sep.join(fields)` for a one-character separator. */
  function Join(fields: seq<string>, sep: char): string
    requires |fields| >= 1
    decreases |fields|
  {
    if |fields| == 1 then fields[0] else fields[0] + [sep] + Join(fields[1..], sep)
  }

  /**
   * `s.split(sep)`: the maximal separator-free pieces of `s`, in order; an
   * empty piece stands between two adjacent separators and at either end.
   */
  function Split(s: string, sep: char): (fields: seq<string>)
    ensures |fields| >= 1
    ensures forall i :: 0 <= i < |fields| ==> sep !in fields[i]
    ensures Join(fields, sep) == s
    ensures sep in s <==> |fields| >= 2
    decreases |s|
  {
    if sep !in s then [s]
    else
      var i := IndexOf(s, sep);
      var rest := Split(s[i + 1..], sep);
      assert s == s[..i] + [sep] + s[i + 1..];
      [s[..i]] + rest
  }

  /** Splitting undoes joining: the other half of the round trip in Split's contract. */
  lemma {:induction false} SplitJoin(fields: seq<string>, sep: char)
    requires |fields| >= 1
    requires forall i :: 0 <= i < |fields| ==> sep !in fields[i]
    ensures Split(Join(fields, sep), sep) == fields
    decreases |fields|
  {
    var s := Join(fields, sep);
    if |fields| == 1 {
      assert s == fields[0];
    } else {
      var tail := Join(fields[1..], sep);
      assert s == fields[0] + [sep] + tail;
      assert s[|fields[0]|] == sep;
      var i := IndexOf(s, sep);
      assert i == |fields[0]|;
      assert s[..i] == fields[0];
      assert s[i + 1..] == tail;
      SplitJoin(fields[1..], sep);
      assert fields == [fields[0]] + fields[1..];
    }
  }

  /** The characters `str.isspace` accepts. */
  predicate IsUnicodeSpace(c: char)
  {
    var n := c as int;
    (9 <= n <= 13) || (28 <= n <= 32) || n == 0x85 || n == 0xA0 || n == 0x1680
    || (0x2000 <= n <= 0x200A) || n == 0x2028 || n == 0x2029 || n == 0x202F
    || n == 0x205F || n == 0x3000
  }

  /**
   * The white space `int()` skips at both ends of its argument. A non-ASCII
   * character counts when `str.isspace` accepts it; an ASCII character only
   * when it is one of " \t\n\v\f\r", so the separators U+001C to U+001F are
   * not skipped.
   */
  predicate IsIntSpace(c: char)
  {
    var n := c as int;
    if n < 0x80 then (9 <= n <= 13) || n == 32 else IsUnicodeSpace(c)
  }

  function TrimStart(s: string): (t: string)
    ensures |t| <= |s| && t == s[|s| - |t|..]
    ensures t == [] || !IsIntSpace(t[0])
    decreases |s|
  {
    if s != [] && IsIntSpace(s[0]) then TrimStart(s[1..]) else s
  }

  function TrimEnd(s: string): (t: string)
    ensures |t| <= |s| && t == s[..|t|]
    ensures t == [] || !IsIntSpace(t[|t| - 1])
    decreases |s|
  {
    if s != [] && IsIntSpace(s[|s| - 1]) then TrimEnd(s[..|s| - 1]) else s
  }

  /** What TrimStart removes is white space. */
  lemma {:induction false} TrimStartRemovesSpace(s: string)
    ensures forall i :: 0 <= i < |s| - |TrimStart(s)| ==> IsIntSpace(s[i])
    decreases |s|
  {
    if s != [] && IsIntSpace(s[0]) {
      var t := s[1..];
      TrimStartRemovesSpace(t);
      forall i | 0 < i < |s| - |TrimStart(s)|
        ensures IsIntSpace(s[i])
      {
        assert s[i] == t[i - 1];
      }
    }
  }

  /** What TrimEnd removes is white space. */
  lemma {:induction false} TrimEndRemovesSpace(s: string)
    ensures forall i :: |TrimEnd(s)| <= i < |s| ==> IsIntSpace(s[i])
    decreases |s|
  {
    if s != [] && IsIntSpace(s[|s| - 1]) {
      TrimEndRemovesSpace(s[..|s| - 1]);
    }
  }

  /** `s` without the white space `int()` skips at either end. */
  function Strip(s: string): string
  {
    TrimEnd(TrimStart(s))
  }

  predicate IsDigit(c: char)
  {
    '0' <= c <= '9'
  }

  /**
   * The digit part `int()` accepts in base 10: decimal digits, where a single
   * underscore may stand between two digits.
   */
  predicate IsDigitGroup(s: string)
  {
    |s| >= 1 && IsDigit(s[0]) && IsGroupTail(s[1..])
  }

  /** What may follow a digit in a digit group: digits, each optionally preceded by one underscore. */
  predicate IsGroupTail(s: string)
    decreases |s|
  {
    if s == [] then true
    else if IsDigit(s[0]) then IsGroupTail(s[1..])
    else |s| >= 2 && s[0] == '_' && IsDigit(s[1]) && IsGroupTail(s[2..])
  }

  /** A digit group ends in a digit and holds nothing but digits and underscores. */
  lemma {:induction false} DigitGroupShape(s: string)
    requires IsDigitGroup(s)
    ensures IsDigit(s[|s| - 1])
    ensures forall i :: 0 <= i < |s| ==> IsDigit(s[i]) || s[i] == '_'
    decreases |s|
  {
    var t := s[1..];
    if t != [] {
      if IsDigit(t[0]) {
        DigitGroupShape(t);
        assert forall i :: 1 <= i < |s| ==> s[i] == t[i - 1];
      } else {
        DigitGroupShape(t[1..]);
        assert forall i :: 2 <= i < |s| ==> s[i] == t[1..][i - 2];
      }
    }
  }

  /** A non-empty run of digits is a digit group. */
  lemma {:induction false} DigitsAreGroup(s: string)
    requires |s| >= 1 && forall i :: 0 <= i < |s| ==> IsDigit(s[i])
    ensures IsDigitGroup(s)
    decreases |s|
  {
    if |s| >= 2 {
      DigitsAreGroup(s[1..]);
    }
  }

  function DigitValue(c: char): nat
    requires IsDigit(c)
  {
    c as int - '0' as int
  }

  /** The value of a digit group, underscores skipped. */
  function GroupValue(s: string): nat
    decreases |s|
  {
    if s == [] then 0
    else if IsDigit(s[|s| - 1]) then 10 * GroupValue(s[..|s| - 1]) + DigitValue(s[|s| - 1])
    else GroupValue(s[..|s| - 1])
  }

  /**
   * `int(s)` for a string `s`: surrounding white space, an optional sign, then
   * a digit group. `None` is the ValueError that `int` raises otherwise.
   */
  function ParseInt(s: string): (r: Option<int>)
    ensures r.Some? ==> |Strip(s)| >= 1 && (Strip(s)[0] == '-' || Strip(s)[0] == '+' || IsDigit(Strip(s)[0]))
    ensures r.Some? && r.value < 0 ==> Strip(s)[0] == '-'
  {
    var t := Strip(s);
    if |t| >= 1 && t[0] == '-' && IsDigitGroup(t[1..]) then Some(0 - GroupValue(t[1..]) as int)
    else if |t| >= 1 && t[0] == '+' && IsDigitGroup(t[1..]) then Some(GroupValue(t[1..]))
    else if IsDigitGroup(t) then Some(GroupValue(t))
    else None
  }

  function DigitChar(d: nat): (c: char)
    requires d < 10
    ensures IsDigit(c) && DigitValue(c) == d
  {
    ('0' as int + d) as char
  }

  /** Decimal digits of `n`, without leading zeros. */
  function NatToString(n: nat): (s: string)
    ensures |s| >= 1
    ensures forall i :: 0 <= i < |s| ==> IsDigit(s[i])
    ensures s[0] == '0' ==> n == 0
    decreases n
  {
    if n < 10 then [DigitChar(n)] else NatToString(n / 10) + [DigitChar(n % 10)]
  }

  /** `str(n)` for an integer `n`. */
  function IntToString(n: int): (s: string)
    ensures |s| >= 1 && (s[0] == '-' <==> n < 0)
    ensures forall i :: 1 <= i < |s| ==> IsDigit(s[i])
  {
    if n < 0 then "-" + NatToString(-n) else NatToString(n)
  }

  lemma {:induction false} GroupValueOfNatToString(n: nat)
    ensures IsDigitGroup(NatToString(n))
    ensures GroupValue(NatToString(n)) == n
    decreases n
  {
    var s := NatToString(n);
    DigitsAreGroup(s);
    if n >= 10 {
      GroupValueOfNatToString(n / 10);
      assert s[..|s| - 1] == NatToString(n / 10);
    }
  }

  /** A string with no white space at either end is its own strip. */
  lemma StripUnpadded(s: string)
    requires s != [] && !IsIntSpace(s[0]) && !IsIntSpace(s[|s| - 1])
    ensures Strip(s) == s
  {
    assert TrimStart(s) == s;
  }

  /** A digit group parses as its value. */
  lemma ParseDigitGroup(g: string)
    requires IsDigitGroup(g)
    ensures ParseInt(g) == Some(GroupValue(g))
  {
    assert IsDigit(g[|g| - 1]) by {
      DigitGroupShape(g);
    }
    StripUnpadded(g);
  }

  /** A minus sign followed by a digit group parses as the group's value negated. */
  lemma ParseNegativeDigitGroup(g: string)
    requires IsDigitGroup(g)
    ensures ParseInt("-" + g) == Some(0 - GroupValue(g))
  {
    var s := "-" + g;
    assert s[0] == '-' && s[1..] == g;
    assert Strip(s) == s by {
      assert IsDigit(s[|s| - 1]) by {
        DigitGroupShape(g);
        assert s[|s| - 1] == g[|g| - 1];
      }
      StripUnpadded(s);
    }
  }

  /** `int(str(n)) == n` for every integer `n`. */
  lemma ParseIntOfIntToString(n: int)
    ensures ParseInt(IntToString(n)) == Some(n)
  {
    var m := if n < 0 then -n else n;
    GroupValueOfNatToString(m);
    if n < 0 {
      ParseNegativeDigitGroup(NatToString(m));
    } else {
      ParseDigitGroup(NatToString(m));
    }
  }

  /** `int()` raises on a string that is empty or white space only. */
  lemma ParseIntRejectsBlank(s: string)
    requires forall i :: 0 <= i < |s| ==> IsIntSpace(s[i])
    ensures ParseInt(s) == None
  {
    assert Strip(s) == [];
  }

  /**
   * What `int()` skips is white space to `str.isspace` too, but not the other
   * way round: the ASCII separators U+001C to U+001F are not skipped.
   */
  lemma IntSpaceIsUnicodeSpace(c: char)
    ensures IsIntSpace(c) ==> IsUnicodeSpace(c)
    ensures 28 <= c as int <= 31 ==> IsUnicodeSpace(c) && !IsIntSpace(c)
  {
  }

  /** `int("\x1c5")` raises: a leading file separator is not skipped. */
  lemma ParseIntRejectsSeparator()
    ensures ParseInt(['\U{1C}', '5']) == None
  {
    var s := ['\U{1C}', '5'];
    assert TrimStart(s) == s;
    assert Strip(s) == s;
  }
}
