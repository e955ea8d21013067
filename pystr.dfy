/** The Python string built-ins the scraper and the post-processing rely on:
    `str.split` with a one-character separator, `str.join`, `str.strip` with a
    set of characters, `str.replace(c, '')`, `int()` of a string and `str()` of
    an integer. Also the Option and Result wrappers used for `None` and for a
    call that raises. */
module PyText {

  datatype Option<T> = None | Some(value: T)

  /** The outcome of a call that either returns a value or raises. */
  datatype Result<T, E> = Ok(value: T) | Err(error: E)

  predicate IsDigit(c: char) { '0' <= c <= '9' }

  predicate AllDigits(s: string) { forall i :: 0 <= i < |s| ==> IsDigit(s[i]) }

  /** The characters Python's `str.strip()` and `int()` treat as whitespace. */
  const Whitespace: set<char> := {' ', '\t', '\n', '\r', 11 as char, 12 as char}

  // ---------------------------------------------------------------------------
  // split and join

  /** `s.split(sep)`: the maximal separator-free pieces, in order. */
  function Split(s: string, sep: char): (r: seq<string>)
    ensures |r| >= 1
    ensures forall i :: 0 <= i < |r| ==> sep !in r[i]
    ensures |r| == 1 <==> sep !in s
    decreases |s|
  {
    if s == [] then [""]
    else
      var rest := Split(s[1..], sep);
      if s[0] == sep then [""] + rest
      else [[s[0]] + rest[0]] + rest[1..]
  }

  /** `s.split(sep)[0]`, the text before the first separator, computed
      directly. */
  function FirstPiece(s: string, sep: char): string
    decreases |s|
  {
    if s == [] || s[0] == sep then [] else [s[0]] + FirstPiece(s[1..], sep)
  }

  lemma {:induction false} FirstPieceIsSplit(s: string, sep: char)
    ensures FirstPiece(s, sep) == Split(s, sep)[0]
    decreases |s|
  {
    if s != [] && s[0] != sep {
      FirstPieceIsSplit(s[1..], sep);
    }
  }

  /** `sep.join(parts)`. */
  function Join(sep: char, parts: seq<string>): string
    decreases |parts|
  {
    if |parts| == 0 then ""
    else if |parts| == 1 then parts[0]
    else parts[0] + [sep] + Join(sep, parts[1..])
  }

  /** Joining the pieces of a split gives back the original text. */
  lemma {:induction false} JoinSplit(s: string, sep: char)
    ensures Join(sep, Split(s, sep)) == s
    decreases |s|
  {
    if s != [] {
      var rest := Split(s[1..], sep);
      JoinSplit(s[1..], sep);
      if s[0] == sep {
        assert Split(s, sep) == [""] + rest;
        assert Join(sep, [""] + rest) == "" + [sep] + Join(sep, rest);
      } else {
        var parts := Split(s, sep);
        assert parts == [[s[0]] + rest[0]] + rest[1..];
        if |rest| == 1 {
          assert Join(sep, parts) == [s[0]] + rest[0];
        } else {
          assert parts[1..] == rest[1..];
          assert Join(sep, rest) == rest[0] + [sep] + Join(sep, rest[1..]);
          assert Join(sep, parts) == [s[0]] + rest[0] + [sep] + Join(sep, rest[1..]);
        }
      }
    }
  }

  /** Splitting text that starts with a separator-free prefix `w`. */
  lemma {:induction false} SplitAfterPrefix(w: string, t: string, sep: char)
    requires sep !in w
    ensures Split(w + t, sep) == [w + Split(t, sep)[0]] + Split(t, sep)[1..]
    decreases |w|
  {
    if w != [] {
      assert (w + t)[1..] == w[1..] + t;
      assert (w + t)[0] == w[0];
      SplitAfterPrefix(w[1..], t, sep);
      assert [w[0]] + (w[1..] + Split(t, sep)[0]) == w + Split(t, sep)[0];
    } else {
      var parts := Split(t, sep);
      assert w + t == t;
      assert parts == [parts[0]] + parts[1..];
      assert w + parts[0] == parts[0];
    }
  }

  /** The first piece of `w + [sep] + rest` is `w`, the others are the pieces of `rest`. */
  lemma SplitFirstWord(w: string, rest: string, sep: char)
    requires sep !in w
    ensures Split(w + [sep] + rest, sep) == [w] + Split(rest, sep)
  {
    assert w + [sep] + rest == w + ([sep] + rest);
    assert ([sep] + rest)[1..] == rest;
    assert Split([sep] + rest, sep) == [""] + Split(rest, sep);
    SplitAfterPrefix(w, [sep] + rest, sep);
    assert w + "" == w;
  }

  /** Splitting a join of separator-free pieces gives back the pieces. */
  lemma {:induction false} SplitJoin(parts: seq<string>, sep: char)
    requires |parts| >= 1
    requires forall i :: 0 <= i < |parts| ==> sep !in parts[i]
    ensures Split(Join(sep, parts), sep) == parts
    decreases |parts|
  {
    if |parts| == 1 {
      SplitAfterPrefix(parts[0], "", sep);
      assert parts[0] + "" == parts[0];
    } else {
      SplitJoin(parts[1..], sep);
      SplitFirstWord(parts[0], Join(sep, parts[1..]), sep);
      assert [parts[0]] + parts[1..] == parts;
    }
  }

  /** `' '.join(s.split(' ')[1:])`: the text with its first space-separated word removed. */
  function DropFirstWord(s: string): (r: string)
    ensures ' ' !in s ==> r == ""
  {
    Join(' ', Split(s, ' ')[1..])
  }

  /** Dropping the first word of `w + " " + rest` leaves exactly `rest`. */
  lemma DropFirstWordOf(w: string, rest: string)
    requires ' ' !in w
    ensures DropFirstWord(w + " " + rest) == rest
  {
    SplitFirstWord(w, rest, ' ');
    assert Split(w + " " + rest, ' ')[1..] == Split(rest, ' ');
    JoinSplit(rest, ' ');
  }

  // ---------------------------------------------------------------------------
  // strip

  /** `s.lstrip(chars)`. */
  function TrimLeft(s: string, chars: set<char>): (r: string)
    ensures |r| <= |s|
    ensures r == [] || r[0] !in chars
    ensures forall i :: 0 <= i < |s| - |r| ==> s[i] in chars
    decreases |s|
  {
    if s != [] && s[0] in chars then TrimLeft(s[1..], chars) else s
  }

  /** What `lstrip` returns is a suffix of its input. */
  lemma {:induction false} TrimLeftIsSuffix(s: string, chars: set<char>)
    ensures TrimLeft(s, chars) == s[|s| - |TrimLeft(s, chars)|..]
    decreases |s|
  {
    if s != [] && s[0] in chars {
      TrimLeftIsSuffix(s[1..], chars);
    }
  }

  /** `lstrip` leaves a string alone when its first character is not in the
      set. */
  lemma TrimLeftUnchanged(s: string, chars: set<char>)
    requires s == [] || s[0] !in chars
    ensures TrimLeft(s, chars) == s
  {
  }

  /** `s.rstrip(chars)`. */
  function TrimRight(s: string, chars: set<char>): (r: string)
    ensures |r| <= |s|
    ensures r == [] || r[|r| - 1] !in chars
    ensures forall i :: |r| <= i < |s| ==> s[i] in chars
    decreases |s|
  {
    if s != [] && s[|s| - 1] in chars then TrimRight(s[..|s| - 1], chars) else s
  }

  /** What `rstrip` returns is a prefix of its input. */
  lemma {:induction false} TrimRightIsPrefix(s: string, chars: set<char>)
    ensures TrimRight(s, chars) == s[..|TrimRight(s, chars)|]
    decreases |s|
  {
    if s != [] && s[|s| - 1] in chars {
      TrimRightIsPrefix(s[..|s| - 1], chars);
    }
  }

  /** `s.strip(chars)`: the middle of `s` once every leading and trailing
      character of `chars` is gone. */
  function Strip(s: string, chars: set<char>): (r: string)
    ensures |r| <= |s|
    ensures r == [] || (r[0] !in chars && r[|r| - 1] !in chars)
    ensures forall c :: c in r ==> c in s
  {
    var left := TrimLeft(s, chars);
    TrimLeftIsSuffix(s, chars);
    TrimRightIsPrefix(left, chars);
    assert forall c :: c in left ==> c in s;
    TrimRight(left, chars)
  }

  /** What `strip` removes lies at the two ends and consists of stripped characters only. */
  lemma StripIsMiddle(s: string, chars: set<char>)
    ensures exists i, j :: 0 <= i <= j <= |s| && Strip(s, chars) == s[i..j]
                        && (forall k :: 0 <= k < i ==> s[k] in chars)
                        && (forall k :: j <= k < |s| ==> s[k] in chars)
  {
    var left := TrimLeft(s, chars);
    var r := TrimRight(left, chars);
    TrimLeftIsSuffix(s, chars);
    TrimRightIsPrefix(left, chars);
    var i := |s| - |left|;
    var j := i + |r|;
    assert r == s[i..j];
    assert forall k :: j <= k < |s| ==> s[k] == left[k - i];
  }

  /** Text that neither starts nor ends with a stripped character is left alone. */
  lemma StripUnchanged(s: string, chars: set<char>)
    requires s == [] || (s[0] !in chars && s[|s| - 1] !in chars)
    ensures Strip(s, chars) == s
  {
  }

  // ---------------------------------------------------------------------------
  // replace(c, '')

  /** `s.replace(c, '')`. */
  function RemoveAll(s: string, c: char): (r: string)
    ensures c !in r
    ensures |r| <= |s|
    ensures forall x :: x != c ==> multiset(r)[x] == multiset(s)[x]
    decreases |s|
  {
    if s == [] then ""
    else
      assert s == [s[0]] + s[1..];
      if s[0] == c then RemoveAll(s[1..], c)
      else [s[0]] + RemoveAll(s[1..], c)
  }

  /** Removing a character distributes over concatenation. */
  lemma {:induction false} RemoveAllAppend(a: string, b: string, c: char)
    ensures RemoveAll(a + b, c) == RemoveAll(a, c) + RemoveAll(b, c)
    decreases |a|
  {
    if a == [] {
      assert a + b == b;
    } else {
      assert (a + b)[1..] == a[1..] + b;
      assert (a + b)[0] == a[0];
      RemoveAllAppend(a[1..], b, c);
    }
  }

  /** Text without the character is unchanged. */
  lemma {:induction false} RemoveAllAbsent(s: string, c: char)
    requires c !in s
    ensures RemoveAll(s, c) == s
    decreases |s|
  {
    if s != [] {
      RemoveAllAbsent(s[1..], c);
    }
  }

  // ---------------------------------------------------------------------------
  // int() and str()

  function DigitValue(c: char): nat
    requires IsDigit(c)
  {
    c as int - '0' as int
  }

  /** The number a string of decimal digits denotes (leading zeros allowed). */
  function DigitsValue(d: string): nat
    requires AllDigits(d)
    decreases |d|
  {
    if d == [] then 0 else DigitsValue(d[..|d| - 1]) * 10 + DigitValue(d[|d| - 1])
  }

  function Pow10(n: nat): nat
  {
    if n == 0 then 1 else 10 * Pow10(n - 1)
  }

  /** Appending digits shifts the value of the prefix by a power of ten. */
  lemma {:induction false} DigitsValueAppend(a: string, b: string)
    requires AllDigits(a) && AllDigits(b)
    ensures AllDigits(a + b)
    ensures DigitsValue(a + b) == DigitsValue(a) * Pow10(|b|) + DigitsValue(b)
    decreases |b|
  {
    if b == [] {
      assert a + b == a;
    } else {
      var b' := b[..|b| - 1];
      var last := b[|b| - 1];
      assert a + b == (a + b') + [last];
      assert (a + b)[..|a + b| - 1] == a + b';
      DigitsValueAppend(a, b');
      var x, p, y, d := DigitsValue(a), Pow10(|b'|), DigitsValue(b'), DigitValue(last);
      var v := DigitsValue(a + b');
      assert DigitsValue(a + b) == v * 10 + d;
      assert DigitsValue(b) == y * 10 + d;
      assert Pow10(|b|) == 10 * p;
      ShiftDigit(x, p, y, d);
    }
  }

  lemma ShiftDigit(x: int, p: int, y: int, d: int)
    ensures (x * p + y) * 10 + d == x * (10 * p) + (y * 10 + d)
  {
  }

  /** Python 2's `int(s)` for a string: surrounding whitespace, an optional
      sign followed by optional whitespace, then at least one decimal digit;
      anything else raises ValueError (None). */
  function ParseInt(s: string): Option<int>
  {
    var t := Strip(s, Whitespace);
    if |t| > 0 && (t[0] == '-' || t[0] == '+') then
      var d := TrimLeft(t[1..], Whitespace);
      if d != [] && AllDigits(d) then
        var v: int := if t[0] == '-' then -(DigitsValue(d) as int) else DigitsValue(d);
        Some(v)
      else None
    else if t != [] && AllDigits(t) then Some(DigitsValue(t))
    else None
  }

  /** `int()` of a plain digit string is the number the digits denote. */
  lemma ParseDigits(d: string)
    requires d != [] && AllDigits(d)
    ensures ParseInt(d) == Some(DigitsValue(d))
  {
    assert d[0] !in Whitespace && d[|d| - 1] !in Whitespace by {
      assert IsDigit(d[0]) && IsDigit(d[|d| - 1]);
    }
    StripUnchanged(d, Whitespace);
  }

  /** A string that holds no digit at all never parses. */
  lemma ParseNoDigits(s: string)
    requires forall i :: 0 <= i < |s| ==> !IsDigit(s[i])
    ensures ParseInt(s) == None
  {
    var t := Strip(s, Whitespace);
    if |t| > 0 {
      assert t[0] in s;
      var d := TrimLeft(t[1..], Whitespace);
      if d != [] {
        TrimLeftIsSuffix(t[1..], Whitespace);
        assert d[0] in t;
      }
    }
  }

  function DigitChar(n: nat): (c: char)
    requires n < 10
    ensures IsDigit(c) && DigitValue(c) == n
  {
    ('0' as int + n) as char
  }

  /** Python's `str(n)` for a non-negative integer. */
  function NatToString(n: nat): (s: string)
    ensures s != [] && AllDigits(s) && DigitsValue(s) == n
    ensures |s| > 1 ==> s[0] != '0'
    decreases n
  {
    if n < 10 then [DigitChar(n)]
    else
      var h := NatToString(n / 10);
      var s := h + [DigitChar(n % 10)];
      assert s[..|s| - 1] == h;
      s
  }

  /** Python's `str(i)` for any integer. */
  function IntToString(i: int): string
  {
    if i < 0 then "-" + NatToString(-i) else NatToString(i)
  }

  /** `int()` of a minus sign followed by digits is the negated value. */
  lemma ParseNegative(d: string)
    requires d != [] && AllDigits(d)
    ensures ParseInt("-" + d) == Some(-(DigitsValue(d) as int))
  {
    var s := "-" + d;
    assert s[|s| - 1] == d[|d| - 1] && IsDigit(d[|d| - 1]);
    StripUnchanged(s, Whitespace);
    assert s[1..] == d;
    assert IsDigit(d[0]);
    TrimLeftUnchanged(d, Whitespace);
  }

  /** `int(str(i)) == i`: the decimal form of an integer parses back to it. */
  lemma ParseIntToString(i: int)
    ensures ParseInt(IntToString(i)) == Some(i)
  {
    if i < 0 {
      ParseNegative(NatToString(-i));
    } else {
      ParseDigits(NatToString(i));
    }
  }

  /** Different numbers print differently. */
  lemma NatToStringInjective(m: nat, n: nat)
    requires NatToString(m) == NatToString(n)
    ensures m == n
  {
  }
}
