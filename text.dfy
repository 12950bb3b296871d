/** The string operations the client relies on: substring search, removal of
    every occurrence of a pattern, whitespace trimming, quote stripping,
    joining text pieces, decimal formatting and the lesson file name. */
module Text {

  /** `pat` occurs somewhere in `s` (every string contains the empty one). */
  predicate Contains(s: string, pat: string)
    decreases |s|
  {
    pat <= s || (|s| > 0 && Contains(s[1..], pat))
  }

  /** `Contains` is substring occurrence: `pat` occurs in `s` exactly when
      some suffix of `s` starts with it. */
  lemma {:induction false} ContainsOccurs(s: string, pat: string)
    ensures Contains(s, pat) <==> exists i :: 0 <= i <= |s| && pat <= s[i..]
    decreases |s|
  {
    if pat <= s {
      assert s[0..] == s;
    } else if |s| > 0 {
      ContainsOccurs(s[1..], pat);
      assert forall i :: 1 <= i <= |s| ==> s[i..] == s[1..][i - 1..];
      if exists i :: 0 <= i <= |s| && pat <= s[i..] {
        var i :| 0 <= i <= |s| && pat <= s[i..];
        assert i != 0;
        assert pat <= s[1..][i - 1..];
      }
    }
  }

  /** Replaces every occurrence of `pat` with nothing, scanning left to right
      and resuming after each match, as a single-pass `replace(pat, "")` does. */
  function RemoveAll(s: string, pat: string): (r: string)
    requires |pat| > 0
    ensures |r| <= |s|
    decreases |s|
  {
    if |s| == 0 then ""
    else if pat <= s then RemoveAll(s[|pat|..], pat)
    else [s[0]] + RemoveAll(s[1..], pat)
  }

  /** A string without the pattern is left as it is. */
  lemma {:induction false} RemoveAllUntouched(s: string, pat: string)
    requires |pat| > 0 && !Contains(s, pat)
    ensures RemoveAll(s, pat) == s
    decreases |s|
  {
    if |s| > 0 {
      RemoveAllUntouched(s[1..], pat);
      assert [s[0]] + s[1..] == s;
    }
  }

  /** Every removal shortens the text by the pattern's length: a string that
      contains the pattern loses at least that much. */
  lemma {:induction false} RemoveAllShortens(s: string, pat: string)
    requires |pat| > 0 && Contains(s, pat)
    ensures |RemoveAll(s, pat)| <= |s| - |pat|
    decreases |s|
  {
    if !(pat <= s) {
      RemoveAllShortens(s[1..], pat);
    }
  }

  /** A leading occurrence of the pattern is dropped and the rest is processed
      on its own. */
  lemma RemoveAllLeading(pat: string, t: string)
    requires |pat| > 0
    ensures RemoveAll(pat + t, pat) == RemoveAll(t, pat)
  {
    assert pat <= pat + t;
    assert (pat + t)[|pat|..] == t;
  }

  /** A single pass can join the two halves of a pattern that surrounded a
      removed occurrence, so the result may still contain the pattern. */
  lemma RemoveAllCanLeaveOccurrence()
    ensures RemoveAll("aabb", "ab") == "ab"
    ensures Contains(RemoveAll("aabb", "ab"), "ab")
  {
    assert "aabb"[1] != "ab"[1];
    assert "aabb"[1..] == "abb";
    assert "ab" <= "abb";
    assert "abb"[2..] == "b";
    assert !("ab" <= "b");
    assert "b"[1..] == "";
    assert RemoveAll("b", "ab") == "b";
    assert RemoveAll("abb", "ab") == "b";
    assert "ab" <= "ab";
  }

  /** The characters with the Unicode White_Space property, the set that
      trimming removes. */
  predicate IsWhitespace(c: char)
  {
    var n := c as int;
    (9 <= n <= 13) || n == 0x20 || n == 0x85 || n == 0xA0 || n == 0x1680 ||
    (0x2000 <= n <= 0x200A) || n == 0x2028 || n == 0x2029 || n == 0x202F ||
    n == 0x205F || n == 0x3000
  }

  /** Drops leading whitespace: the result is the suffix of `s` that starts at
      its first non-whitespace character. */
  function TrimStart(s: string): (r: string)
    ensures |r| <= |s| && r == s[|s| - |r|..]
    ensures forall i :: 0 <= i < |s| - |r| ==> IsWhitespace(s[i])
    ensures r == [] || !IsWhitespace(r[0])
    decreases |s|
  {
    if |s| > 0 && IsWhitespace(s[0]) then TrimStart(s[1..]) else s
  }

  /** Drops trailing whitespace: the result is the prefix of `s` that ends at
      its last non-whitespace character. */
  function TrimEnd(s: string): (r: string)
    ensures |r| <= |s| && r == s[..|r|]
    ensures forall i :: |r| <= i < |s| ==> IsWhitespace(s[i])
    ensures r == [] || !IsWhitespace(r[|r| - 1])
    decreases |s|
  {
    if |s| > 0 && IsWhitespace(s[|s| - 1]) then TrimEnd(s[..|s| - 1]) else s
  }

  /** Drops whitespace at both ends. */
  function Trim(s: string): (r: string)
    ensures Trimmed(r)
    ensures |r| <= |s|
  {
    TrimEnd(TrimStart(s))
  }

  /** A string that neither starts nor ends with whitespace. */
  predicate Trimmed(s: string)
  {
    s == [] || (!IsWhitespace(s[0]) && !IsWhitespace(s[|s| - 1]))
  }

  predicate AllWhitespace(s: string)
  {
    forall i :: 0 <= i < |s| ==> IsWhitespace(s[i])
  }

  lemma {:induction false} TrimStartPadding(a: string, s: string)
    requires AllWhitespace(a)
    requires s == [] || !IsWhitespace(s[0])
    ensures TrimStart(a + s) == s
    decreases |a|
  {
    if a == [] {
      assert a + s == s;
    } else {
      assert (a + s)[0] == a[0];
      assert (a + s)[1..] == a[1..] + s;
      TrimStartPadding(a[1..], s);
    }
  }

  lemma {:induction false} TrimEndPadding(s: string, b: string)
    requires AllWhitespace(b)
    requires s == [] || !IsWhitespace(s[|s| - 1])
    ensures TrimEnd(s + b) == s
    decreases |b|
  {
    if b == [] {
      assert s + b == s;
    } else {
      var front := b[..|b| - 1];
      assert (s + b)[|s + b| - 1] == b[|b| - 1];
      assert (s + b)[..|s + b| - 1] == s + front;
      TrimEndPadding(s, front);
    }
  }

  /** Trimming removes exactly the whitespace around a trimmed core: this
      characterises `Trim` completely, since every string splits this way. */
  lemma TrimPadding(a: string, s: string, b: string)
    requires AllWhitespace(a) && AllWhitespace(b) && Trimmed(s)
    ensures Trim(a + s + b) == s
  {
    if s == [] {
      assert a + s + b == a + b;
      assert AllWhitespace(a + b);
      TrimStartPadding(a + b, "");
      assert a + b + "" == a + b;
    } else {
      assert a + s + b == a + (s + b);
      TrimStartPadding(a, s + b);
      TrimEndPadding(s, b);
    }
  }

  /** The result of trimming is trimmed, and trimming twice changes nothing. */
  lemma TrimIdempotent(s: string)
    ensures Trimmed(Trim(s))
    ensures Trim(Trim(s)) == Trim(s)
  {
    var t := Trim(s);
    var u := TrimStart(s);
    if t != [] {
      assert t[0] == u[0];
    }
    assert t == "" + t + "";
    TrimPadding("", t, "");
  }

  /** Deletes every double-quote character, keeping the others in order. */
  function StripQuotes(s: string): (r: string)
    ensures '"' !in r
    ensures |r| <= |s|
    ensures '"' !in s ==> r == s
    decreases |s|
  {
    if s == [] then ""
    else (if s[0] == '"' then "" else [s[0]]) + StripQuotes(s[1..])
  }

  /** Exactly the double quotes are deleted: the result is shorter than the
      input by the number of quotes in it. */
  lemma {:induction false} StripQuotesLength(s: string)
    ensures |StripQuotes(s)| == |s| - multiset(s)['"']
    decreases |s|
  {
    if s != [] {
      assert s == [s[0]] + s[1..];
      StripQuotesLength(s[1..]);
    }
  }

  /** Quote stripping works piece by piece, so it keeps every other character
      in its original order. */
  lemma {:induction false} StripQuotesAppend(a: string, b: string)
    ensures StripQuotes(a + b) == StripQuotes(a) + StripQuotes(b)
    decreases |a|
  {
    if a != [] {
      var head := if a[0] == '"' then "" else [a[0]];
      assert (a + b)[0] == a[0];
      assert (a + b)[1..] == a[1..] + b;
      StripQuotesAppend(a[1..], b);
      calc {
        StripQuotes(a + b);
        head + StripQuotes(a[1..] + b);
        head + (StripQuotes(a[1..]) + StripQuotes(b));
        (head + StripQuotes(a[1..])) + StripQuotes(b);
        StripQuotes(a) + StripQuotes(b);
      }
    } else {
      assert a + b == b;
    }
  }

  /** Joins text pieces with a separator between consecutive pieces. */
  function Join(pieces: seq<string>, sep: string): string
    decreases |pieces|
  {
    if |pieces| == 0 then ""
    else if |pieces| == 1 then pieces[0]
    else pieces[0] + sep + Join(pieces[1..], sep)
  }

  /** Adding a piece at the end adds the separator and that piece: together
      with the empty and single-piece cases this determines `Join`. */
  lemma {:induction false} JoinSnoc(pieces: seq<string>, x: string, sep: string)
    requires |pieces| > 0
    ensures Join(pieces + [x], sep) == Join(pieces, sep) + sep + x
    decreases |pieces|
  {
    if |pieces| == 1 {
      assert pieces + [x] == [pieces[0], x];
      assert [pieces[0], x][1..] == [x];
    } else {
      assert (pieces + [x])[1..] == pieces[1..] + [x];
      JoinSnoc(pieces[1..], x, sep);
    }
  }

  predicate IsDigit(c: char)
  {
    '0' <= c <= '9'
  }

  predicate AllDigits(s: string)
  {
    forall i :: 0 <= i < |s| ==> IsDigit(s[i])
  }

  function DigitChar(d: nat): (c: char)
    requires d < 10
    ensures IsDigit(c) && c as int - '0' as int == d
  {
    ('0' as int + d) as char
  }

  /** The decimal form of a natural number, as `{}` formats an unsigned
      integer: digits only, no sign, no leading zero. */
  function Decimal(n: nat): (r: string)
    ensures |r| > 0 && AllDigits(r)
    ensures r[0] != '0' || n == 0
    decreases n
  {
    if n < 10 then [DigitChar(n)] else Decimal(n / 10) + [DigitChar(n % 10)]
  }

  /** The number a string of decimal digits denotes. */
  function DecimalValue(s: string): nat
    requires AllDigits(s)
    decreases |s|
  {
    if s == [] then 0
    else DecimalValue(s[..|s| - 1]) * 10 + (s[|s| - 1] as int - '0' as int)
  }

  /** Reading back the decimal form gives the number again. */
  lemma {:induction false} DecimalRoundTrip(n: nat)
    ensures DecimalValue(Decimal(n)) == n
    decreases n
  {
    if n >= 10 {
      DecimalRoundTrip(n / 10);
      var s := Decimal(n);
      assert s[..|s| - 1] == Decimal(n / 10);
    }
  }

  /** The longest run of digits at the start of `s`. */
  function LeadingDigits(s: string): (r: string)
    ensures AllDigits(r)
    decreases |s|
  {
    if s != [] && IsDigit(s[0]) then [s[0]] + LeadingDigits(s[1..]) else ""
  }

  lemma {:induction false} LeadingDigitsOf(d: string, t: string)
    requires AllDigits(d)
    requires t == [] || !IsDigit(t[0])
    ensures LeadingDigits(d + t) == d
    decreases |d|
  {
    if d == [] {
      assert d + t == t;
    } else {
      assert (d + t)[1..] == d[1..] + t;
      LeadingDigitsOf(d[1..], t);
    }
  }

  /** The output file of a lesson: `<dir>/<folder>/<index>. <title>.mp4`. */
  function LessonPath(dir: string, folder: string, index: nat, title: string): (p: string)
    ensures dir + "/" + folder + "/" <= p
    ensures |p| >= 4 && p[|p| - 4..] == ".mp4"
  {
    dir + "/" + folder + "/" + Decimal(index) + ". " + title + ".mp4"
  }

  /** The index can be read back from a lesson's path: after the directory
      and folder, the leading digits are the index in decimal. */
  lemma LessonPathIndex(dir: string, folder: string, index: nat, title: string)
    ensures var p := LessonPath(dir, folder, index, title);
            var prefix := dir + "/" + folder + "/";
            prefix <= p && DecimalValue(LeadingDigits(p[|prefix|..])) == index
  {
    var prefix := dir + "/" + folder + "/";
    var rest := ". " + title + ".mp4";
    var p := LessonPath(dir, folder, index, title);
    assert p == prefix + (Decimal(index) + rest);
    assert p[|prefix|..] == Decimal(index) + rest;
    LeadingDigitsOf(Decimal(index), rest);
    DecimalRoundTrip(index);
  }

  /** Two lessons of one folder with different indices never share an output
      file, whatever their titles. */
  lemma LessonPathsDistinct(dir: string, folder: string, i: nat, j: nat, t1: string, t2: string)
    requires i != j
    ensures LessonPath(dir, folder, i, t1) != LessonPath(dir, folder, j, t2)
  {
    LessonPathIndex(dir, folder, i, t1);
    LessonPathIndex(dir, folder, j, t2);
  }
}
