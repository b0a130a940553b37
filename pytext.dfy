/**
 * The pieces of Python's string handling that the catalog relies on, with
 * their CPython semantics: `str.lstrip(c)`, `str.split(sep)` with a
 * one-character separator, `os.path.splitext` on POSIX paths, and `int(s)`
 * on a text argument in base 10.
 */
module PyText {
  import opened Wrappers

  // ---------------------------------------------------------------------
  // str.lstrip(c)

  /** `s.lstrip(c)` for a single character `c`: every leading `c` is dropped. */
  function LStrip(s: string, c: char): (r: string)
    ensures |r| <= |s| && r == s[|s| - |r|..]
    ensures forall i :: 0 <= i < |s| - |r| ==> s[i] == c
    ensures r == [] || r[0] != c
  {
    if |s| > 0 && s[0] == c then LStrip(s[1..], c) else s
  }

  // ---------------------------------------------------------------------
  // str.split(sep) and its inverse sep.join(parts)

  /** `s.split(sep)` with an explicit one-character separator: never empty, `"".split(",") == [""]`. */
  function Split(s: string, sep: char): (parts: seq<string>)
    ensures |parts| >= 1
    ensures forall i :: 0 <= i < |parts| ==> sep !in parts[i]
    decreases |s|
  {
    if |s| == 0 then [""]
    else
      var rest := Split(s[1..], sep);
      if s[0] == sep then [""] + rest
      else [[s[0]] + rest[0]] + rest[1..]
  }

  /** `sep.join(parts)`. */
  function Join(parts: seq<string>, sep: char): string
    requires |parts| >= 1
    decreases |parts|
  {
    if |parts| == 1 then parts[0] else parts[0] + [sep] + Join(parts[1..], sep)
  }

  /** Splitting and joining again gives back the text. */
  lemma {:induction false} JoinSplit(s: string, sep: char)
    ensures Join(Split(s, sep), sep) == s
    decreases |s|
  {
    if |s| > 0 {
      JoinSplit(s[1..], sep);
      var rest := Split(s[1..], sep);
      if s[0] != sep {
        if |rest| > 1 {
          assert Join(rest, sep) == rest[0] + [sep] + Join(rest[1..], sep);
          assert Join([[s[0]] + rest[0]] + rest[1..], sep)
              == [s[0]] + rest[0] + [sep] + Join(rest[1..], sep);
        }
        assert s == [s[0]] + s[1..];
      } else {
        assert ([""] + rest)[1..] == rest;
        assert s == [sep] + s[1..];
      }
    }
  }

  /** The first piece of a split consumes leading non-separators. */
  lemma {:induction false} SplitCons(c: char, s: string, sep: char)
    requires c != sep
    ensures Split([c] + s, sep) == [[c] + Split(s, sep)[0]] + Split(s, sep)[1..]
  {
    assert ([c] + s)[1..] == s;
  }

  /** A leading separator splits off an empty first piece. */
  lemma SplitSepCons(s: string, sep: char)
    ensures Split([sep] + s, sep) == [""] + Split(s, sep)
  {
    assert ([sep] + s)[1..] == s;
  }

  /** Joining moves the first character of a non-empty first piece to the front. */
  lemma JoinHead(parts: seq<string>, sep: char)
    requires |parts| >= 1 && |parts[0]| > 0
    ensures Join(parts, sep) == [parts[0][0]] + Join([parts[0][1..]] + parts[1..], sep)
  {
    var p := parts[0];
    var tail := [p[1..]] + parts[1..];
    assert tail[1..] == parts[1..];
    assert [p[0]] + p[1..] == p;
    if |parts| == 1 {
      assert Join(parts, sep) == [p[0]] + p[1..];
    } else {
      assert Join(tail, sep) == p[1..] + [sep] + Join(parts[1..], sep);
    }
  }

  /** Joining pieces that do not contain the separator and splitting again gives back the pieces. */
  lemma {:induction false} SplitJoin(parts: seq<string>, sep: char)
    requires |parts| >= 1
    requires forall i :: 0 <= i < |parts| ==> sep !in parts[i]
    ensures Split(Join(parts, sep), sep) == parts
    decreases |parts|, |parts[0]|
  {
    if |parts[0]| > 0 {
      var p := parts[0];
      var tail := [p[1..]] + parts[1..];
      assert sep !in p[1..] by { assert forall x :: x in p[1..] ==> x in p; }
      forall i | 0 <= i < |tail| ensures sep !in tail[i] {
        if i > 0 { assert tail[i] == parts[i]; }
      }
      SplitJoin(tail, sep);
      JoinHead(parts, sep);
      SplitCons(p[0], Join(tail, sep), sep);
      assert [p[0]] + p[1..] == p;
      assert parts == [p] + tail[1..];
    } else if |parts| > 1 {
      SplitJoin(parts[1..], sep);
      assert Join(parts, sep) == [sep] + Join(parts[1..], sep);
      SplitSepCons(Join(parts[1..], sep), sep);
      assert parts == [""] + parts[1..];
    }
  }

  /** The first piece of a split is the text before the first separator. */
  lemma {:induction false} SplitFirst(s: string, sep: char)
    ensures var f := Split(s, sep)[0];
            |f| <= |s| && f == s[..|f|] && sep !in f && (|f| == |s| || s[|f|] == sep)
    decreases |s|
  {
    if |s| > 0 && s[0] != sep {
      SplitFirst(s[1..], sep);
    }
  }

  // ---------------------------------------------------------------------
  // os.path.splitext on POSIX paths

  /** `s.rfind(c)`: the index of the last `c`, or -1 if there is none. */
  function RFind(s: string, c: char): (r: int)
    ensures -1 <= r < |s|
    ensures r >= 0 ==> s[r] == c
    ensures forall i :: r < i < |s| ==> s[i] != c
    ensures r == -1 <==> c !in s
    decreases |s|
  {
    if |s| == 0 then -1
    else if s[|s| - 1] == c then |s| - 1
    else
      var r := RFind(s[..|s| - 1], c);
      assert c in s ==> c in s[..|s| - 1] by {
        if c in s { var i :| 0 <= i < |s| && s[i] == c; assert s[..|s| - 1][i] == c; }
      }
      r
  }

  /** Some character of `s[lo..hi]` is not a dot (the leading-dots scan of `splitext`). */
  predicate HasNonDot(s: string, lo: int, hi: int)
    requires 0 <= lo && hi <= |s|
  {
    exists i :: lo <= i < hi && s[i] != '.'
  }

  /**
   * `os.path.splitext(p)`: the extension is the text from the last dot on,
   * provided that dot lies in the last path component and is not one of the
   * component's leading dots; otherwise the extension is empty.
   */
  function SplitExt(p: string): (r: (string, string))
    ensures r.0 + r.1 == p
    ensures r.1 == [] || (r.1[0] == '.' && '.' !in r.1[1..] && '/' !in r.1)
  {
    var sepIndex := RFind(p, '/');
    var dotIndex := RFind(p, '.');
    if dotIndex > sepIndex && HasNonDot(p, sepIndex + 1, dotIndex) then
      var ext := p[dotIndex..];
      assert forall i :: 0 <= i < |ext| ==> ext[i] == p[dotIndex + i];
      assert p[..dotIndex] + ext == p;
      (p[..dotIndex], ext)
    else
      (p, "")
  }

  /** The last component of `p` has no dot after a character that is not a dot. */
  predicate UndottedLast(p: string)
  {
    forall i :: RFind(p, '/') < i < |p| && p[i] == '.' ==>
      forall j :: RFind(p, '/') < j < i ==> p[j] == '.'
  }

  /** A path whose last component has no dot, or only leading dots, has no extension. */
  lemma NoExtension(p: string)
    requires UndottedLast(p)
    ensures SplitExt(p) == (p, "")
  {
  }

  /** An occurrence of `c` with none after it is the one `rfind` finds. */
  lemma RFindAt(s: string, c: char, k: int)
    requires 0 <= k < |s| && s[k] == c
    requires forall i :: k < i < |s| ==> s[i] != c
    ensures RFind(s, c) == k
  {
  }

  /** Appending text without `c` does not move the last `c`. */
  lemma RFindAppend(s: string, t: string, c: char)
    requires c !in t
    ensures RFind(s + t, c) == RFind(s, c)
  {
    var r := RFind(s, c);
    forall i | r < i < |s + t| ensures (s + t)[i] != c {
      if i >= |s| { assert (s + t)[i] == t[i - |s|]; }
    }
    if r >= 0 {
      RFindAt(s + t, c, r);
    } else {
      assert c !in s + t;
    }
  }

  /** `SplitExt` cuts at the last dot when that dot qualifies. */
  lemma SplitExtAtDot(p: string, n: int)
    requires 0 <= n < |p| && RFind(p, '.') == n && n > RFind(p, '/')
    requires HasNonDot(p, RFind(p, '/') + 1, n)
    ensures SplitExt(p) == (p[..n], p[n..])
  {
  }

  /** The dot joining a stem to a dot-free extension is the last one. */
  lemma LastDotJoins(stem: string, ext: string)
    requires '.' !in ext
    ensures RFind(stem + "." + ext, '.') == |stem|
  {
    assert stem + "." + ext == (stem + ".") + ext;
    RFindAppend(stem + ".", ext, '.');
    RFindAt(stem + ".", '.', |stem|);
  }

  /** Appending a dot and a slash-free extension keeps the last slash. */
  lemma LastSlashKept(stem: string, ext: string)
    requires '/' !in ext
    ensures RFind(stem + "." + ext, '/') == RFind(stem, '/')
  {
    assert stem + "." + ext == (stem + ".") + ext;
    RFindAppend(stem + ".", ext, '/');
    RFindAppend(stem, ".", '/');
  }

  /**
   * A path `stem + "." + ext` whose extension has no dot or slash, and whose
   * last component has a non-dot character before that dot, splits there.
   */
  lemma SplitExtAt(stem: string, ext: string)
    requires '.' !in ext && '/' !in ext
    requires exists i :: RFind(stem, '/') < i < |stem| && stem[i] != '.'
    ensures SplitExt(stem + "." + ext) == (stem, "." + ext)
  {
    var p := stem + "." + ext;
    var n := |stem|;
    LastDotJoins(stem, ext);
    LastSlashKept(stem, ext);
    var s := RFind(stem, '/');
    var k :| s < k < n && stem[k] != '.';
    assert p[k] == stem[k];
    SplitExtAtDot(p, n);
    assert p[..n] == stem;
    assert p[n..] == "." + ext;
  }

  /** A text without the separator splits into itself alone. */
  lemma {:induction false} SplitWithout(s: string, sep: char)
    requires sep !in s
    ensures Split(s, sep) == [s]
    decreases |s|
  {
    if |s| > 0 {
      assert sep !in s[1..] by { assert forall x :: x in s[1..] ==> x in s; }
      SplitWithout(s[1..], sep);
      assert [s[0]] + s[1..] == s;
    }
  }

  // ---------------------------------------------------------------------
  // int(s) on text, base 10

  /**
   * The characters `int()` skips around its argument: the ASCII tab, line
   * feed, vertical tab, form feed, carriage return and space, and the
   * non-ASCII Unicode white space. The ASCII separators U+001C..U+001F count
   * as white space for `str.strip()` but are not skipped by `int()`.
   */
  predicate IsSpace(c: char)
  {
    || c == ' ' || '\t' <= c <= '\r'
    || c == '\U{85}' || c == '\U{A0}' || c == '\U{1680}' || '\U{2000}' <= c <= '\U{200A}'
    || c == '\U{2028}' || c == '\U{2029}' || c == '\U{202F}' || c == '\U{205F}' || c == '\U{3000}'
  }

  predicate IsDigit(c: char)
  {
    '0' <= c <= '9'
  }

  /** `r` is `s[a..]` with some trailing characters cut, and everything cut off either end is white space. */
  predicate TrimmedAt(s: string, r: string, a: int)
  {
    && 0 <= a <= |s| - |r| && r == s[a..a + |r|]
    && forall i :: 0 <= i < |s| && (i < a || a + |r| <= i) ==> IsSpace(s[i])
  }

  /** Trimming survives putting a white-space character back in front. */
  lemma TrimmedFront(s: string, r: string, a: int)
    requires |s| > 0 && IsSpace(s[0]) && TrimmedAt(s[1..], r, a)
    ensures TrimmedAt(s, r, a + 1)
  {
    assert s[1..][a..a + |r|] == s[a + 1..a + 1 + |r|];
    forall i | 0 <= i < |s| && (i < a + 1 || a + 1 + |r| <= i) ensures IsSpace(s[i]) {
      if i > 0 { assert s[i] == s[1..][i - 1]; }
    }
  }

  /** Trimming survives putting a white-space character back at the end. */
  lemma TrimmedBack(s: string, r: string, a: int)
    requires |s| > 0 && IsSpace(s[|s| - 1]) && TrimmedAt(s[..|s| - 1], r, a)
    ensures TrimmedAt(s, r, a)
  {
    var t := s[..|s| - 1];
    assert t[a..a + |r|] == s[a..a + |r|];
    forall i | 0 <= i < |s| && (i < a || a + |r| <= i) ensures IsSpace(s[i]) {
      if i < |t| { assert s[i] == t[i]; }
    }
  }

  /** The trimming `int()` does before it reads digits: drops the leading and trailing white space. */
  function Strip(s: string): (r: string)
    ensures exists a :: TrimmedAt(s, r, a)
    ensures r == [] || (!IsSpace(r[0]) && !IsSpace(r[|r| - 1]))
    ensures |s| > 0 && !IsSpace(s[0]) && !IsSpace(s[|s| - 1]) ==> r == s
    decreases |s|
  {
    if |s| == 0 || (!IsSpace(s[0]) && !IsSpace(s[|s| - 1])) then
      assert TrimmedAt(s, s, 0);
      s
    else if IsSpace(s[0]) then
      var r := Strip(s[1..]);
      assert exists a :: TrimmedAt(s, r, a) by {
        var a :| TrimmedAt(s[1..], r, a);
        TrimmedFront(s, r, a);
      }
      r
    else
      var r := Strip(s[..|s| - 1]);
      assert exists a :: TrimmedAt(s, r, a) by {
        var a :| TrimmedAt(s[..|s| - 1], r, a);
        TrimmedBack(s, r, a);
      }
      r
  }

  /**
   * The digit part of a base-10 integer literal as `int()` accepts it: ASCII
   * digits, with single underscores allowed between two digits.
   */
  predicate ValidDigits(d: string)
  {
    && |d| > 0 && IsDigit(d[0]) && IsDigit(d[|d| - 1])
    && (forall i :: 0 <= i < |d| ==> IsDigit(d[i]) || d[i] == '_')
    && (forall i :: 0 <= i < |d| - 1 ==> d[i] == '_' ==> d[i + 1] != '_')
  }

  /** The number a digit string denotes, underscores skipped. */
  function DigitsValue(d: string): nat
    decreases |d|
  {
    if |d| == 0 then 0
    else
      var last := d[|d| - 1];
      if IsDigit(last) then DigitsValue(d[..|d| - 1]) * 10 + (last as int - '0' as int)
      else DigitsValue(d[..|d| - 1])
  }

  /**
   * The shape of every text `int()` accepts once stripped: digits and
   * underscores, one optional leading sign, ending with a digit.
   */
  predicate IntegerShape(t: string)
  {
    && |t| > 0 && IsDigit(t[|t| - 1])
    && forall i :: 0 <= i < |t| ==> IsDigit(t[i]) || t[i] == '_' || (i == 0 && (t[i] == '+' || t[i] == '-'))
  }

  /** A digit string has the shape of an integer literal. */
  lemma UnsignedShape(t: string)
    requires ValidDigits(t)
    ensures IntegerShape(t)
  {
  }

  /** So has a sign followed by a digit string. */
  lemma SignedShape(t: string)
    requires |t| > 0 && (t[0] == '+' || t[0] == '-') && ValidDigits(t[1..])
    ensures IntegerShape(t)
  {
    assert forall i :: 1 <= i < |t| ==> t[i] == t[1..][i - 1];
  }

  /** `int(s)`: the integer `s` spells, or `None` where Python raises `ValueError`. */
  function ParseInt(s: string): (r: Option<int>)
    ensures r.Some? ==> IntegerShape(Strip(s)) && (r.value < 0 ==> Strip(s)[0] == '-')
  {
    var t := Strip(s);
    if |t| > 0 && (t[0] == '+' || t[0] == '-') then
      if ValidDigits(t[1..]) then
        SignedShape(t);
        Some(if t[0] == '-' then -(DigitsValue(t[1..]) as int) else DigitsValue(t[1..]))
      else None
    else if ValidDigits(t) then
      UnsignedShape(t);
      Some(DigitsValue(t))
    else None
  }

  /** The canonical decimal spelling of a natural number, as `str(n)` gives it. */
  function Decimal(n: nat): (r: string)
    ensures |r| > 0 && forall i :: 0 <= i < |r| ==> IsDigit(r[i])
  {
    if n < 10 then [('0' as int + n) as char]
    else Decimal(n / 10) + [('0' as int + n % 10) as char]
  }

  lemma {:induction false} DecimalValue(n: nat)
    ensures DigitsValue(Decimal(n)) == n
  {
    var r := Decimal(n);
    if n < 10 {
      assert r[..0] == [];
    } else {
      DecimalValue(n / 10);
      assert r[..|r| - 1] == Decimal(n / 10);
    }
  }

  /** A decimal spelling is a valid digit string: no underscores, nothing to strip. */
  lemma DecimalShape(n: nat)
    ensures ValidDigits(Decimal(n))
    ensures Strip(Decimal(n)) == Decimal(n)
    ensures Strip("-" + Decimal(n)) == "-" + Decimal(n)
  {
    var d := Decimal(n);
    assert !IsSpace(d[0]) && !IsSpace(d[|d| - 1]);
    var m := "-" + d;
    assert m[|m| - 1] == d[|d| - 1];
    assert !IsSpace(m[0]) && !IsSpace(m[|m| - 1]);
  }

  /** `int(str(n)) == n` and `int("-" + str(n)) == -n`: decimal spellings parse back. */
  lemma ParseDecimal(n: nat)
    ensures ParseInt(Decimal(n)) == Some(n as int)
    ensures ParseInt("-" + Decimal(n)) == Some(-(n as int))
  {
    ParsePositiveDecimal(n);
    ParseNegativeDecimal(n);
  }

  lemma ParsePositiveDecimal(n: nat)
    ensures ParseInt(Decimal(n)) == Some(n as int)
  {
    DecimalValue(n);
    DecimalShape(n);
    ParseUnsigned(Decimal(n));
  }

  lemma ParseNegativeDecimal(n: nat)
    ensures ParseInt("-" + Decimal(n)) == Some(-(n as int))
  {
    DecimalValue(n);
    DecimalShape(n);
    ParseSigned(Decimal(n));
  }

  lemma ParseUnsigned(t: string)
    requires Strip(t) == t && ValidDigits(t)
    ensures ParseInt(t) == Some(DigitsValue(t) as int)
  {
    assert t[0] != '+' && t[0] != '-';
  }

  lemma ParseSigned(d: string)
    requires Strip("-" + d) == "-" + d && ValidDigits(d)
    ensures ParseInt("-" + d) == Some(-(DigitsValue(d) as int))
  {
    var t := "-" + d;
    assert t[1..] == d;
    var u := Strip(t);
    assert u[0] == '-' && ValidDigits(u[1..]);
  }

  /** A file, group, record or unit separator next to the digits is not skipped: `int()` rejects the text. */
  lemma SeparatorRejected(d: string, sep: char)
    requires ValidDigits(d) && '\U{1C}' <= sep <= '\U{1F}'
    ensures ParseInt([sep] + d) == None
    ensures ParseInt(d + [sep]) == None
  {
    var s, t := [sep] + d, d + [sep];
    assert s[0] == sep && s[|s| - 1] == d[|d| - 1];
    assert t[0] == d[0] && t[|t| - 1] == sep;
    KeptRejected(s);
    KeptRejected(t);
  }

  /** A text with nothing to trim that is not an integer literal is rejected. */
  lemma KeptRejected(s: string)
    requires |s| > 0 && !IsSpace(s[0]) && !IsSpace(s[|s| - 1])
    requires (!IsDigit(s[0]) && s[0] != '+' && s[0] != '-') || !IsDigit(s[|s| - 1])
    ensures ParseInt(s) == None
  {
    assert Strip(s) == s;
  }

  /** A string containing no digit at all is rejected by `int()`. */
  lemma NoDigitRejected(s: string)
    requires forall i :: 0 <= i < |s| ==> !IsDigit(s[i])
    ensures ParseInt(s) == None
  {
    StripInside(s);
  }

  /** Every character that survives `Strip` was a character of the input. */
  lemma {:induction false} StripInside(s: string)
    ensures forall j :: 0 <= j < |Strip(s)| ==> Strip(s)[j] in s
    decreases |s|
  {
    if |s| > 0 {
      if IsSpace(s[0]) {
        StripInside(s[1..]);
        forall j | 0 <= j < |Strip(s)| ensures Strip(s)[j] in s {
          assert Strip(s)[j] in s[1..];
        }
      } else if IsSpace(s[|s| - 1]) {
        StripInside(s[..|s| - 1]);
        forall j | 0 <= j < |Strip(s)| ensures Strip(s)[j] in s {
          assert Strip(s)[j] in s[..|s| - 1];
        }
      }
    }
  }
}
