/** Strings as the C++ library sees them: ordering, whitespace-delimited words and decimal numbers. */
module Text {

  datatype Option<+T> = None | Some(value: T)

  /** The result of a conversion that throws: std::invalid_argument or std::out_of_range. */
  datatype Parsed<+T> = Ok(value: T) | InvalidArgument | OutOfRange

  const TWO_64: nat := 0x1_0000_0000_0000_0000

  /** `isspace` in the C locale: tab, line feed, vertical tab, form feed, carriage return, space. */
  predicate IsSpace(c: char) {
    c == ' ' || '\t' <= c <= '\r'
  }

  predicate IsDigit(c: char) {
    '0' <= c <= '9'
  }

  predicate NoSpaces(s: string) {
    forall i :: 0 <= i < |s| ==> !IsSpace(s[i])
  }

  /** The order of `std::string`, which is also the order of the keys of a `std::map`. */
  predicate Less(a: string, b: string) {
    b != "" && (a == "" || a[0] < b[0] || (a[0] == b[0] && Less(a[1..], b[1..])))
  }

  lemma {:induction false} LessIrreflexive(a: string)
    ensures !Less(a, a)
  {
    if a != "" {
      LessIrreflexive(a[1..]);
    }
  }

  lemma {:induction false} LessTransitive(a: string, b: string, c: string)
    requires Less(a, b) && Less(b, c)
    ensures Less(a, c)
  {
    if a != "" && a[0] == b[0] == c[0] {
      LessTransitive(a[1..], b[1..], c[1..]);
    }
  }

  lemma {:induction false} LessTotal(a: string, b: string)
    ensures Less(a, b) || a == b || Less(b, a)
  {
    if a != "" && b != "" && a[0] == b[0] {
      LessTotal(a[1..], b[1..]);
      assert a == [a[0]] + a[1..] && b == [b[0]] + b[1..];
    }
  }

  /** It is the lexicographic order: the strings agree up to a position where the first one ends or has the smaller
      character. */
  lemma {:induction false} LessIs(a: string, b: string)
    ensures Less(a, b) <==> exists i :: Splits(a, b, i)
  {
    if a == "" || b == "" || a[0] != b[0] {
      assert Less(a, b) ==> Splits(a, b, 0);
    } else {
      LessIs(a[1..], b[1..]);
      forall i | Splits(a[1..], b[1..], i) ensures Splits(a, b, i + 1) {
      }
      forall i | Splits(a, b, i) ensures Splits(a[1..], b[1..], i - 1) {
      }
    }
  }

  predicate Splits(a: string, b: string, i: int) {
    0 <= i <= |a| && i < |b| && (forall k :: 0 <= k < i ==> a[k] == b[k]) && (i < |a| ==> a[i] < b[i])
  }

  // ---------- words ----------

  /** `is >> std::ws`. */
  function SkipSpaces(s: string): (r: string)
    ensures r != "" ==> !IsSpace(r[0])
  {
    if s != "" && IsSpace(s[0]) then SkipSpaces(s[1..]) else s
  }

  /** The number of characters before the first one that is a space. */
  function WordLength(s: string): (n: nat)
    ensures n <= |s| && NoSpaces(s[..n])
    ensures n < |s| ==> IsSpace(s[n])
  {
    if s == "" || IsSpace(s[0]) then 0 else
      var n := 1 + WordLength(s[1..]);
      assert s[..n] == [s[0]] + s[1..][..n - 1];
      n
  }

  /** `is >> word`: the word read. */
  function Word(s: string): string {
    var t := SkipSpaces(s);
    t[..WordLength(t)]
  }

  /** `is >> word`: what is left in the stream. */
  function AfterWord(s: string): string {
    var t := SkipSpaces(s);
    t[WordLength(t)..]
  }

  lemma NoSpacesInTail(s: string)
    requires s != "" && NoSpaces(s)
    ensures NoSpaces(s[1..])
  {
    forall i | 0 <= i < |s| - 1 ensures !IsSpace(s[1..][i]) {
      assert s[1..][i] == s[i + 1];
    }
  }

  lemma {:induction false} WordLengthIs(s: string, n: nat)
    requires n <= |s| && NoSpaces(s[..n]) && (n < |s| ==> IsSpace(s[n]))
    ensures WordLength(s) == n
  {
    if n > 0 {
      assert !IsSpace(s[..n][0]);
      NoSpacesInTail(s[..n]);
      assert s[..n][1..] == s[1..][..n - 1];
      WordLengthIs(s[1..], n - 1);
    }
  }

  lemma WordOfWord(w: string, rest: string)
    requires w != "" && NoSpaces(w)
    requires rest == "" || IsSpace(rest[0])
    ensures Word(w + rest) == w && AfterWord(w + rest) == rest
  {
    var s := w + rest;
    assert !IsSpace(s[0]);
    assert s[..|w|] == w && s[|w|..] == rest;
    WordLengthIs(s, |w|);
  }

  lemma {:induction false} SkipsSpaces(spaces: string, s: string)
    requires (forall i :: 0 <= i < |spaces| ==> IsSpace(spaces[i])) && (s == "" || !IsSpace(s[0]))
    ensures SkipSpaces(spaces + s) == s
  {
    if spaces == "" {
      assert spaces + s == s;
    } else {
      SkipsSpaces(spaces[1..], s);
      assert (spaces + s)[1..] == spaces[1..] + s;
    }
  }

  /** A word is read from behind the white space before it up to the white space after it,
      and there may be none left. */
  lemma WordIs(spaces: string, w: string, rest: string)
    requires forall i :: 0 <= i < |spaces| ==> spaces[i] as int in [9, 10, 11, 12, 13, 32]
    requires forall i :: 0 <= i < |w| ==> w[i] as int !in [9, 10, 11, 12, 13, 32]
    requires if w == "" then rest == "" else rest != "" ==> rest[0] as int in [9, 10, 11, 12, 13, 32]
    ensures Word(spaces + w + rest) == w && AfterWord(spaces + w + rest) == rest
  {
    SpacesAre();
    assert spaces + w + rest == spaces + (w + rest);
    SkipsSpaces(spaces, w + rest);
    if w != "" {
      WordOfWord(w, rest);
    }
  }

  lemma SpacesAre()
    ensures forall c :: IsSpace(c) <==> c as int in [9, 10, 11, 12, 13, 32]
  {
    forall c ensures IsSpace(c) <==> c as int in [9, 10, 11, 12, 13, 32] {
      assert '\t' as int == 9 && '\r' as int == 13 && ' ' as int == 32;
    }
  }

  // ---------- numbers ----------

  function DigitValue(c: char): nat {
    if IsDigit(c) then c as int - '0' as int else 0
  }

  /** `os << n`. */
  function Decimal(n: nat): (s: string)
    ensures s != "" && forall i :: 0 <= i < |s| ==> IsDigit(s[i])
  {
    (if n < 10 then "" else Decimal(n / 10)) + [(('0' as int) + n % 10) as char]
  }

  /** Decimal notation: a number below ten is its digit, and another digit behind multiplies by ten. */
  lemma DecimalIs(n: nat, d: nat)
    requires d < 10
    ensures Decimal(d) == ["0123456789"[d]]
    ensures n > 0 ==> Decimal(10 * n + d) == Decimal(n) + ["0123456789"[d]]
  {
    assert "0123456789"[d] == (('0' as int) + d) as char;
    assert (10 * n + d) / 10 == n && (10 * n + d) % 10 == d;
  }

  function DigitsLength(s: string): (n: nat)
    ensures n <= |s| && forall i :: 0 <= i < n ==> IsDigit(s[i])
    ensures n < |s| ==> !IsDigit(s[n])
  {
    if s == "" || !IsDigit(s[0]) then 0 else 1 + DigitsLength(s[1..])
  }

  /** The number a digit string denotes. */
  function DecimalValue(s: string): nat {
    if s == "" then 0 else DecimalValue(s[..|s| - 1]) * 10 + DigitValue(s[|s| - 1])
  }

  lemma {:induction false} DecimalRoundTrip(n: nat)
    ensures DecimalValue(Decimal(n)) == n
  {
    var s := Decimal(n);
    if n < 10 {
      assert s[..|s| - 1] == "";
    } else {
      DecimalRoundTrip(n / 10);
      assert s[..|s| - 1] == Decimal(n / 10);
    }
  }

  /** `std::stoul`: leading spaces, an optional sign, at least one digit; the rest is ignored. */
  function Stoul(s: string): (r: Parsed<nat>)
    ensures r.Ok? ==> r.value < TWO_64
  {
    var t := SkipSpaces(s);
    var negative := t != "" && t[0] == '-';
    var u := if negative || (t != "" && t[0] == '+') then t[1..] else t;
    var n := DigitsLength(u);
    if n == 0 then InvalidArgument else
      var v := DecimalValue(u[..n]);
      if v >= TWO_64 then OutOfRange
      else if negative && v != 0 then Ok(TWO_64 - v)
      else Ok(v)
  }

  predicate AllSpaces(s: string) {
    forall i :: 0 <= i < |s| ==> IsSpace(s[i])
  }

  predicate AllDigits(s: string) {
    forall i :: 0 <= i < |s| ==> IsDigit(s[i])
  }

  lemma {:induction false} SpacesBefore(s: string) returns (spaces: string)
    ensures s == spaces + SkipSpaces(s) && AllSpaces(spaces)
  {
    spaces := "";
    if s != "" && IsSpace(s[0]) {
      var rest := SpacesBefore(s[1..]);
      spaces := [s[0]] + rest;
    }
  }

  /** The parts of a text that `std::stoul` looks at, and what it makes of them: a number that does not fit is out of
      range, no digits are an invalid argument, and a minus sign takes the number modulo 2^64. */
  lemma StoulIs(s: string) returns (spaces: string, sign: string, digits: string, rest: string)
    ensures s == spaces + sign + digits + rest
    ensures AllSpaces(spaces) && (sign == "" || sign == "+" || sign == "-") && AllDigits(digits)
        && (rest != "" ==> !IsDigit(rest[0]))
    ensures sign == "" && digits == "" && rest != "" ==> !IsSpace(rest[0]) && rest[0] != '+' && rest[0] != '-'
    ensures var v := DecimalValue(digits);
            Stoul(s) == if digits == "" then InvalidArgument
                        else if v >= 0x1_0000_0000_0000_0000 then OutOfRange
                        else Ok(if sign == "-" && v > 0 then 0x1_0000_0000_0000_0000 - v else v)
  {
    spaces := SpacesBefore(s);
    var u;
    sign, u := SignOff(SkipSpaces(s));
    digits, rest := DigitsOff(u);
    StoulParts(s, sign, u, digits);
    Concat(spaces, sign, digits, rest);
    NothingSkipped(s, sign, digits, rest);
  }

  lemma DigitsOff(u: string) returns (digits: string, rest: string)
    ensures u == digits + rest && AllDigits(digits) && (rest != "" ==> !IsDigit(rest[0]))
    ensures digits == u[..DigitsLength(u)]
  {
    digits, rest := u[..DigitsLength(u)], u[DigitsLength(u)..];
  }

  lemma NothingSkipped(s: string, sign: string, digits: string, rest: string)
    requires SkipSpaces(s) == sign + (digits + rest)
    requires sign == "-" <==> SkipSpaces(s) != "" && SkipSpaces(s)[0] == '-'
    requires sign == "+" <==> SkipSpaces(s) != "" && SkipSpaces(s)[0] == '+'
    ensures sign == "" && digits == "" && rest != "" ==> !IsSpace(rest[0]) && rest[0] != '+' && rest[0] != '-'
  {
  }

  lemma Concat(a: string, b: string, c: string, d: string)
    ensures a + (b + (c + d)) == a + b + c + d
  {
  }

  lemma StoulParts(s: string, sign: string, u: string, digits: string)
    requires var t := SkipSpaces(s);
             && (sign == "-" <==> t != "" && t[0] == '-') && (sign == "+" <==> t != "" && t[0] == '+')
             && u == if sign == "" || t == "" then t else t[1..]
    requires digits == u[..DigitsLength(u)] && (sign == "" || sign == "+" || sign == "-")
    ensures var v := DecimalValue(digits);
            Stoul(s) == if digits == "" then InvalidArgument
                        else if v >= TWO_64 then OutOfRange
                        else Ok(if sign == "-" && v > 0 then TWO_64 - v else v)
  {
  }

  lemma SignOff(t: string) returns (sign: string, u: string)
    ensures t == sign + u && (sign == "" || sign == "+" || sign == "-")
    ensures sign == "-" <==> t != "" && t[0] == '-'
    ensures sign == "+" <==> t != "" && t[0] == '+'
    ensures u == if sign == "" then t else t[1..]
  {
    sign := if t == "" then "" else if t[0] == '-' then "-" else if t[0] == '+' then "+" else "";
    u := t[|sign|..];
    if t != "" {
      assert t == [t[0]] + t[1..];
    }
  }

  lemma {:induction false} AllDigitsLength(s: string)
    requires forall i :: 0 <= i < |s| ==> IsDigit(s[i])
    ensures DigitsLength(s) == |s|
  {
    if s != "" {
      AllDigitsLength(s[1..]);
    }
  }

  lemma StoulOfDigits(s: string)
    requires s != "" && forall i :: 0 <= i < |s| ==> IsDigit(s[i])
    ensures Stoul(s) == if DecimalValue(s) < TWO_64 then Ok(DecimalValue(s)) else OutOfRange
  {
    assert IsDigit(s[0]);
    assert !IsSpace(s[0]);
    assert SkipSpaces(s) == s;
    assert s[0] != '-' && s[0] != '+';
    AllDigitsLength(s);
    var n := DigitsLength(s);
    assert n == |s|;
    assert s[..n] == s;
    assert DecimalValue(s[..n]) == DecimalValue(s);
  }

  lemma StoulOfDecimal(n: nat)
    requires n < TWO_64
    ensures Stoul(Decimal(n)) == Ok(n)
  {
    StoulOfDecimalText(n);
  }

  lemma StoulOfDecimalText(n: nat)
    ensures Stoul(Decimal(n)) == if n < TWO_64 then Ok(n) else OutOfRange
  {
    DecimalRoundTrip(n);
    StoulOfDigits(Decimal(n));
  }

  /** `s.find(c)`, with |s| for `npos`. */
  function Find(s: string, c: char): (n: nat)
    ensures n <= |s| && c !in s[..n]
    ensures n < |s| ==> s[n] == c
  {
    if s == "" || s[0] == c then 0 else
      var n := 1 + Find(s[1..], c);
      assert s[..n] == [s[0]] + s[1..][..n - 1];
      n
  }

  lemma {:induction false} FindIs(s: string, c: char, n: nat)
    requires n <= |s| && c !in s[..n] && (n < |s| ==> s[n] == c)
    ensures Find(s, c) == n
  {
    if n > 0 {
      assert s[0] in s[..n];
      assert s[..n] == [s[0]] + s[1..][..n - 1];
      FindIs(s[1..], c, n - 1);
    }
  }
}
