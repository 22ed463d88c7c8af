/**
 The reply parser of `detect_image_orientation`: the model's answer is sanitised, every
 character `str.isdigit` accepts is kept, the kept characters are read as one decimal
 number with `int()`, and only 0, 90, 180 and 270 are accepted. Every failure (no
 digits, a digit `int()` cannot read, any other number) gives 0.
 */
module RotationReply {
  import opened TextLayout

  /** `str.isdigit` on a Latin-1 character: the ASCII digits and the superscripts
      one, two and three. */
  predicate IsDigitChar(c: char)
  {
    ('0' <= c <= '9') || c == '¹' || c == '²' || c == '³'
  }

  /** A digit `int()` can read: only the ASCII ones among the Latin-1 digits. */
  predicate IsDecimalChar(c: char)
  {
    '0' <= c <= '9'
  }

  predicate AllDecimal(s: string)
  {
    forall i :: 0 <= i < |s| ==> IsDecimalChar(s[i])
  }

  /** `''.join(filter(str.isdigit, text))`. */
  function Digits(text: string): (ds: string)
    ensures forall i :: 0 <= i < |ds| ==> IsDigitChar(ds[i])
  {
    if text == [] then []
    else (if IsDigitChar(text[0]) then [text[0]] else []) + Digits(text[1..])
  }

  lemma {:induction false} DigitsAppend(a: string, b: string)
    ensures Digits(a + b) == Digits(a) + Digits(b)
  {
    if a == [] {
      assert a + b == b;
    } else {
      assert (a + b)[1..] == a[1..] + b;
      DigitsAppend(a[1..], b);
    }
  }

  /** The value of a string of ASCII digits, most significant first. */
  function DecimalValue(ds: string): nat
    requires AllDecimal(ds)
  {
    if ds == [] then 0
    else 10 * DecimalValue(ds[..|ds| - 1]) + ((ds[|ds| - 1] as int) - ('0' as int))
  }

  /** `str(n)`: the decimal digits of `n`, no sign, no leading zero. */
  function DecimalText(n: nat): (s: string)
    ensures s != [] && AllDecimal(s)
    ensures |s| > 1 ==> s[0] != '0'
  {
    var d := ((n % 10) + ('0' as int)) as char;
    if n < 10 then [d] else DecimalText(n / 10) + [d]
  }

  /** Reading back what `str` writes gives the number. */
  lemma {:induction false} DecimalRoundTrip(n: nat)
    ensures DecimalValue(DecimalText(n)) == n
  {
    var s := DecimalText(n);
    assert s[..|s| - 1] == if n < 10 then [] else DecimalText(n / 10);
    if n >= 10 {
      DecimalRoundTrip(n / 10);
    }
  }

  /** The rotation `detect_image_orientation` returns for a reply with status 200. */
  function ParseRotationReply(reply: string): (angle: int)
    ensures angle == 0 || angle == 90 || angle == 180 || angle == 270
    ensures Digits(Sanitize(reply)) == [] ==> angle == 0
    ensures angle != 0 ==>
      AllDecimal(Digits(Sanitize(reply))) && DecimalValue(Digits(Sanitize(reply))) == angle
    ensures var ds := Digits(Sanitize(reply));
      (ds != [] && AllDecimal(ds) && (DecimalValue(ds) == 90 || DecimalValue(ds) == 180 || DecimalValue(ds) == 270))
      ==> angle == DecimalValue(ds)
  {
    var digits := Digits(Sanitize(reply));
    if digits == [] then 0                 // int('') raises ValueError
    else if !AllDecimal(digits) then 0     // int() rejects the superscripts
    else
      var value := DecimalValue(digits);
      if value == 0 || value == 90 || value == 180 || value == 270 then value else 0
  }

  lemma {:induction false} NoDigitsSanitized(text: string)
    requires forall i :: 0 <= i < |text| ==> !IsDigitChar(text[i])
    ensures Digits(Sanitize(text)) == []
  {
    if text != [] {
      NoDigitsSanitized(text[1..]);
      SanitizeAppend([text[0]], text[1..]);
      assert [text[0]] + text[1..] == text;
      DigitsAppend(Sanitize([text[0]]), Sanitize(text[1..]));
      assert Sanitize([text[0]]) == (if IsLatin1(text[0]) then [text[0]] else []) + Sanitize([]);
    }
  }

  lemma {:induction false} DigitsOfDecimal(s: string)
    requires AllDecimal(s)
    ensures Digits(s) == s
  {
    if s != [] {
      DigitsOfDecimal(s[1..]);
      assert [s[0]] + s[1..] == s;
    }
  }

  /** The digits of a reply are the digits of its parts, in order. */
  lemma SanitizedDigitsAppend(a: string, b: string)
    ensures Digits(Sanitize(a + b)) == Digits(Sanitize(a)) + Digits(Sanitize(b))
  {
    SanitizeAppend(a, b);
    DigitsAppend(Sanitize(a), Sanitize(b));
  }

  lemma SanitizedDigitsOfNumber(n: nat)
    ensures Digits(Sanitize(DecimalText(n))) == DecimalText(n)
  {
    SanitizeLatin1(DecimalText(n));
    DigitsOfDecimal(DecimalText(n));
  }

  /** A single number written anywhere in a reply, with no other digit around it, is
      read back when it is an accepted angle, and gives 0 otherwise: "Rotate 90
      degrees." gives 90, "45" and "100" give 0. */
  lemma ParseSingleNumber(prefix: string, n: nat, suffix: string)
    requires forall i :: 0 <= i < |prefix| ==> !IsDigitChar(prefix[i])
    requires forall i :: 0 <= i < |suffix| ==> !IsDigitChar(suffix[i])
    ensures ParseRotationReply(prefix + DecimalText(n) + suffix)
         == if n == 0 || n == 90 || n == 180 || n == 270 then n else 0
  {
    var text := DecimalText(n);
    assert Digits(Sanitize(prefix + text)) == text by {
      SanitizedDigitsAppend(prefix, text);
      NoDigitsSanitized(prefix);
      SanitizedDigitsOfNumber(n);
      assert [] + text == text;
    }
    assert Digits(Sanitize(prefix + text + suffix)) == text by {
      SanitizedDigitsAppend(prefix + text, suffix);
      NoDigitsSanitized(suffix);
      assert text + [] == text;
    }
    DecimalRoundTrip(n);
  }

  /** An accepted angle written anywhere in a reply, with no other digit around it, is
      read back exactly: "90", "Rotate 90 degrees." and "270°" all give their angle. */
  lemma ParseRoundTrip(prefix: string, angle: nat, suffix: string)
    requires angle == 0 || angle == 90 || angle == 180 || angle == 270
    requires forall i :: 0 <= i < |prefix| ==> !IsDigitChar(prefix[i])
    requires forall i :: 0 <= i < |suffix| ==> !IsDigitChar(suffix[i])
    ensures ParseRotationReply(prefix + DecimalText(angle) + suffix) == angle
  {
    ParseSingleNumber(prefix, angle, suffix);
  }

  /** All the digits of a reply form one number, so a reply naming two angles, the
      first of them not 0, is rejected: "90 or 180" reads as 90180 and gives 0. */
  lemma TwoAnglesRejected(prefix: string, a: nat, middle: string, b: nat, suffix: string)
    requires a == 90 || a == 180 || a == 270
    requires b == 0 || b == 90 || b == 180 || b == 270
    requires forall i :: 0 <= i < |prefix| ==> !IsDigitChar(prefix[i])
    requires forall i :: 0 <= i < |middle| ==> !IsDigitChar(middle[i])
    requires forall i :: 0 <= i < |suffix| ==> !IsDigitChar(suffix[i])
    ensures ParseRotationReply(prefix + DecimalText(a) + middle + DecimalText(b) + suffix) == 0
  {
    var ta := DecimalText(a);
    var tb := DecimalText(b);
    DecimalRoundTrip(a);
    DecimalPrefix(ta, tb);
    DigitsBetween(prefix, ta, middle, tb, suffix);
    TooLargeRejected(prefix + ta + middle + tb + suffix);
  }

  /** ASCII digits separated by digit-free text are collected in order. */
  lemma DigitsBetween(prefix: string, x: string, middle: string, y: string, suffix: string)
    requires AllDecimal(x) && AllDecimal(y)
    requires forall i :: 0 <= i < |prefix| ==> !IsDigitChar(prefix[i])
    requires forall i :: 0 <= i < |middle| ==> !IsDigitChar(middle[i])
    requires forall i :: 0 <= i < |suffix| ==> !IsDigitChar(suffix[i])
    ensures Digits(Sanitize(prefix + x + middle + y + suffix)) == x + y
  {
    var p1 := prefix + x;
    var p2 := p1 + middle;
    var p3 := p2 + y;
    assert Digits(Sanitize(p1)) == x by {
      SanitizedDigitsAppend(prefix, x);
      NoDigitsSanitized(prefix);
      SanitizedDecimal(x);
      assert [] + x == x;
    }
    assert Digits(Sanitize(p2)) == x by {
      SanitizedDigitsAppend(p1, middle);
      NoDigitsSanitized(middle);
      assert x + [] == x;
    }
    assert Digits(Sanitize(p3)) == x + y by {
      SanitizedDigitsAppend(p2, y);
      SanitizedDecimal(y);
    }
    assert Digits(Sanitize(p3 + suffix)) == x + y by {
      SanitizedDigitsAppend(p3, suffix);
      NoDigitsSanitized(suffix);
      assert (x + y) + [] == x + y;
    }
  }

  lemma SanitizedDecimal(s: string)
    requires AllDecimal(s)
    ensures Digits(Sanitize(s)) == s
  {
    SanitizeLatin1(s);
    DigitsOfDecimal(s);
  }

  /** A reply whose digits read as a number above 270 gives 0. */
  lemma TooLargeRejected(reply: string)
    requires AllDecimal(Digits(Sanitize(reply)))
    requires DecimalValue(Digits(Sanitize(reply))) > 270
    ensures ParseRotationReply(reply) == 0
  {
  }

  /** A superscript digit anywhere in a reply makes `int()` fail, whatever else the
      reply says: "²70" and "90¹" give 0. */
  lemma SuperscriptRejected(prefix: string, c: char, suffix: string)
    requires c == '¹' || c == '²' || c == '³'
    ensures ParseRotationReply(prefix + [c] + suffix) == 0
  {
    var digits := Digits(Sanitize(prefix + [c] + suffix));
    assert digits == Digits(Sanitize(prefix)) + [c] + Digits(Sanitize(suffix)) by {
      SanitizedDigitsAppend(prefix + [c], suffix);
      SanitizedDigitsAppend(prefix, [c]);
      assert Sanitize([c]) == [c] + Sanitize([]);
      assert Digits([c]) == [c] + Digits([]);
    }
    assert digits[|Digits(Sanitize(prefix))|] == c;
  }

  /** Appending digits at least multiplies the value by ten. */
  lemma {:induction false} DecimalPrefix(a: string, b: string)
    requires AllDecimal(a) && AllDecimal(b) && b != []
    ensures AllDecimal(a + b)
    ensures DecimalValue(a + b) >= 10 * DecimalValue(a)
    decreases |b|
  {
    var s := a + b;
    assert s[..|s| - 1] == a + b[..|b| - 1];
    if |b| > 1 {
      DecimalPrefix(a, b[..|b| - 1]);
    } else {
      assert b[..|b| - 1] == [];
      assert a + [] == a;
    }
  }
}
