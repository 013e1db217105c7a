/** The data logic of the payment form: the card-number formatter that
    groups digits in fours as the user types, the expiry formatter that
    inserts the slash, and the card schema as a predicate. */
module PaymentForm {
  import opened Common

  predicate IsDigit(c: char) { '0' <= c <= '9' }

  predicate AllDigits(s: string) { forall i :: 0 <= i < |s| ==> IsDigit(s[i]) }

  /** The two `replace` calls of the card formatter (and the one of the
      expiry formatter) together leave exactly the digits, in order. */
  function DigitsOnly(s: string): (r: string)
    ensures AllDigits(r) && |r| <= |s|
  {
    FilterMembers(s, IsDigit);
    Filter(s, IsDigit)
  }

  /** The first match of `/\d{4,16}/g` on an all-digit string, or "" when
      there are fewer than four digits. */
  function CardDigits(value: string): (m: string)
  {
    var v := DigitsOnly(value);
    if |v| < 4 then "" else v[..Min(16, |v|)]
  }

  /** The parts pushed by the loop: `match.substring(i, i + 4)` for
      i = 0, 4, 8, ... while i is below the length. */
  function Groups(m: string): seq<string>
    decreases |m|
  {
    if m == [] then [] else [m[..Min(4, |m|)]] + Groups(m[Min(4, |m|)..])
  }

  /** `parts.join(" ")`. */
  function JoinWithSpaces(parts: seq<string>): string
  {
    if parts == [] then ""
    else if |parts| == 1 then parts[0]
    else parts[0] + " " + JoinWithSpaces(parts[1..])
  }

  /** What `formatCardNumber` returns for `value`. */
  function CardNumberText(value: string): string
  {
    var parts := Groups(CardDigits(value));
    if |parts| > 0 then JoinWithSpaces(parts) else value
  }

  /** `formatCardNumber`. */
  method FormatCardNumber(value: string) returns (formatted: string)
    ensures formatted == CardNumberText(value)
  {
    var v := DigitsOnly(value);
    var digits := if |v| < 4 then "" else v[..Min(16, |v|)];
    var parts: seq<string> := [];
    var i := 0;
    while i < |digits|
      invariant 0 <= i
      invariant parts + Groups(digits[Min(i, |digits|)..]) == Groups(digits)
      decreases |digits| - i
    {
      GroupsStep(digits, i);
      parts := parts + [digits[i..Min(i + 4, |digits|)]];
      i := i + 4;
    }
    assert parts == Groups(CardDigits(value)) by {
      assert digits[Min(i, |digits|)..] == [];
    }
    if |parts| > 0 {
      formatted := JoinWithSpaces(parts);
    } else {
      formatted := value;
    }
  }

  lemma GroupsStep(m: string, i: nat)
    requires i < |m|
    ensures Groups(m[i..]) == [m[i..Min(i + 4, |m|)]] + Groups(m[Min(i + 4, |m|)..])
  {
    var k := Min(4, |m| - i);
    assert m[i..][..k] == m[i..Min(i + 4, |m|)];
    assert m[i..][k..] == m[Min(i + 4, |m|)..];
  }

  /** The layout of the grouped text: a space after every fourth digit and
      nowhere else, the digits in their original order. */
  lemma {:induction false} GroupsLayout(m: string)
    requires |m| > 0
    ensures var r := JoinWithSpaces(Groups(m));
      && |r| == |m| + (|m| - 1) / 4
      && forall k :: 0 <= k < |r| ==> r[k] == if k % 5 == 4 then ' ' else m[k - k / 5]
    decreases |m|
  {
    if |m| <= 4 {
      assert m[..Min(4, |m|)] == m && m[Min(4, |m|)..] == [];
      assert Groups(m[Min(4, |m|)..]) == [];
      assert Groups(m) == [m];
    } else {
      var rest := m[4..];
      GroupsLayout(rest);
      assert Groups(m) == [m[..4]] + Groups(rest);
      var tail := JoinWithSpaces(Groups(rest));
      assert Groups(rest) != [];
      var r := JoinWithSpaces(Groups(m));
      assert r == m[..4] + " " + tail;
      forall k | 0 <= k < |r|
        ensures r[k] == if k % 5 == 4 then ' ' else m[k - k / 5]
      {
        if k < 4 {
          assert r[k] == m[k] && k / 5 == 0;
        } else if k >= 5 {
          assert r[k] == tail[k - 5];
          assert (k - 5) % 5 == k % 5 && (k - 5) / 5 == k / 5 - 1;
          if k % 5 != 4 {
            assert tail[k - 5] == rest[(k - 5) - (k - 5) / 5];
            assert rest[(k - 5) - (k - 5) / 5] == m[k - k / 5];
          }
        }
      }
    }
  }

  /** Dropping the spaces of the grouped text gives the digits back. */
  lemma {:induction false} GroupsDigits(m: string)
    requires AllDigits(m)
    ensures DigitsOnly(JoinWithSpaces(Groups(m))) == m
    decreases |m|
  {
    if m == [] {
    } else if |m| <= 4 {
      assert m[..Min(4, |m|)] == m && m[Min(4, |m|)..] == [];
      assert Groups(m[Min(4, |m|)..]) == [];
      assert Groups(m) == [m];
      FilterKeepsAll(m, IsDigit);
    } else {
      var rest := m[4..];
      GroupsDigits(rest);
      assert Groups(m) == [m[..4]] + Groups(rest);
      var tail := JoinWithSpaces(Groups(rest));
      assert Groups(rest) != [];
      assert JoinWithSpaces(Groups(m)) == m[..4] + [' '] + tail;
      SeparatorDropped(m[..4], ' ', tail);
      assert m[..4] + rest == m;
    }
  }

  /** Keeping the digits of a digit block, one separator and a remainder
      drops the separator and keeps the block whole. */
  lemma SeparatorDropped(block: string, separator: char, rest: string)
    requires AllDigits(block) && !IsDigit(separator)
    ensures DigitsOnly(block + [separator] + rest) == block + DigitsOnly(rest)
  {
    calc {
      DigitsOnly(block + [separator] + rest);
      { FilterAppend(block + [separator], rest, IsDigit); }
      Filter(block + [separator], IsDigit) + Filter(rest, IsDigit);
      { FilterAppend(block, [separator], IsDigit); }
      Filter(block, IsDigit) + Filter([separator], IsDigit) + Filter(rest, IsDigit);
      { assert [separator][..0] == []; }
      Filter(block, IsDigit) + Filter(rest, IsDigit);
      { FilterKeepsAll(block, IsDigit); }
      block + DigitsOnly(rest);
    }
  }

  /** Fewer than four digits: the input comes back untouched, whatever
      else it holds. */
  lemma ShortCardInputUnchanged(value: string)
    requires |DigitsOnly(value)| < 4
    ensures CardNumberText(value) == value
  {
  }

  /** Four digits or more: the result is the first (up to) sixteen digits in
      groups of four separated by single spaces, at most four groups, so at
      most 19 characters. */
  lemma FormattedCardNumber(value: string)
    requires |DigitsOnly(value)| >= 4
    ensures var r := CardNumberText(value);
      var n := Min(16, |DigitsOnly(value)|);
      && |r| == n + (n - 1) / 4 && |r| <= 19
      && (forall k :: 0 <= k < |r| ==> (r[k] == ' ' <==> k % 5 == 4))
      && (forall k :: 0 <= k < |r| ==> IsDigit(r[k]) || r[k] == ' ')
      && IsDigit(r[0]) && IsDigit(r[|r| - 1])
      && DigitsOnly(r) == DigitsOnly(value)[..n]
  {
    var m := CardDigits(value);
    assert Groups(m) != [];
    GroupsLayout(m);
    GroupsDigits(m);
    var r := CardNumberText(value);
    assert r == JoinWithSpaces(Groups(m));
    assert (|r| - 1) % 5 != 4;
  }

  /** Formatting an already formatted value changes nothing. */
  lemma CardFormatIdempotent(value: string)
    ensures CardNumberText(CardNumberText(value)) == CardNumberText(value)
  {
    if |DigitsOnly(value)| >= 4 {
      FormattedCardNumber(value);
      var m := CardDigits(value);
      var r := CardNumberText(value);
      assert DigitsOnly(r) == m;
      assert CardDigits(r) == m;
    }
  }

  // ---------------------------------------------------------------------
  // Expiry date
  // ---------------------------------------------------------------------

  /** What the expiry field's change handler stores for `input`. */
  function ExpiryText(input: string): string
  {
    var v := DigitsOnly(input);
    if |v| >= 2 then v[..2] + "/" + v[2..Min(4, |v|)] else v
  }

  /** The change handler: keep the digits, then insert the slash after the
      month once there are two of them. */
  method FormatExpiry(input: string) returns (value: string)
    ensures value == ExpiryText(input)
  {
    value := DigitsOnly(input);
    if |value| >= 2 {
      value := value[..2] + "/" + value[2..Min(4, |value|)];
    }
  }

  /** The expiry text has at most five characters (the field's maxLength), a
      slash at position 2 exactly when two digits were typed, digits
      everywhere else, and carries the first four digits typed. */
  lemma ExpiryShape(input: string)
    ensures var r := ExpiryText(input);
      var d := DigitsOnly(input);
      && |r| <= 5
      && (|d| >= 2 <==> |r| > 2 && r[2] == '/')
      && (forall k :: 0 <= k < |r| && k != 2 ==> IsDigit(r[k]))
      && DigitsOnly(r) == d[..Min(4, |d|)]
  {
    ExpiryLayout(input);
    ExpiryKeepsDigits(input);
  }

  /** The length, the slash and the digits of the expiry text. */
  lemma ExpiryLayout(input: string)
    ensures var r := ExpiryText(input);
      var d := DigitsOnly(input);
      && |r| <= 5
      && (|d| >= 2 <==> |r| > 2 && r[2] == '/')
      && (forall k :: 0 <= k < |r| && k != 2 ==> IsDigit(r[k]))
  {
    var d := DigitsOnly(input);
    var r := ExpiryText(input);
    if |d| >= 2 {
      forall k | 0 <= k < |r| && k != 2 ensures IsDigit(r[k]) {
        if k < 2 { assert r[k] == d[k]; } else { assert r[k] == d[k - 1]; }
      }
    }
  }

  /** The digits of the expiry text are the first four digits typed. */
  lemma ExpiryKeepsDigits(input: string)
    ensures var d := DigitsOnly(input);
      DigitsOnly(ExpiryText(input)) == d[..Min(4, |d|)]
  {
    var d := DigitsOnly(input);
    if |d| >= 2 {
      var month, year := d[..2], d[2..Min(4, |d|)];
      assert ExpiryText(input) == month + ['/'] + year;
      assert DigitsOnly(month + ['/'] + year) == month + year by {
        SeparatorDropped(month, '/', year);
        DigitsKept(year);
      }
      assert month + year == d[..Min(4, |d|)];
    } else {
      DigitsKept(d);
    }
  }

  /** A string of digits only is left as it is. */
  lemma DigitsKept(s: string)
    requires AllDigits(s)
    ensures DigitsOnly(s) == s
  {
    forall x | x in s ensures IsDigit(x) {
      var i :| 0 <= i < |s| && s[i] == x;
    }
    FilterKeepsAll(s, IsDigit);
  }

  /** `^\d{2}\/\d{2}$`, the expiry rule of the card schema. */
  predicate MatchesExpiryPattern(s: string)
  {
    |s| == 5 && IsDigit(s[0]) && IsDigit(s[1]) && s[2] == '/' && IsDigit(s[3]) && IsDigit(s[4])
  }

  /** The formatted expiry passes the schema's pattern exactly when at least
      four digits were typed. */
  lemma ExpiryMatchesPatternIff(input: string)
    ensures MatchesExpiryPattern(ExpiryText(input)) <==> |DigitsOnly(input)| >= 4
  {
  }

  lemma ExpiryFormatIdempotent(input: string)
    ensures ExpiryText(ExpiryText(input)) == ExpiryText(input)
  {
    ExpiryShape(input);
    var d := DigitsOnly(input);
    var r := ExpiryText(input);
    assert DigitsOnly(r) == d[..Min(4, |d|)];
  }

  // ---------------------------------------------------------------------
  // Card schema
  // ---------------------------------------------------------------------

  datatype CardFormData = CardFormData(cardNumber: string, cardHolder: string, expiryDate: string, cvv: string)

  predicate CardNumberLengthOk(cardNumber: string) { 16 <= |cardNumber| <= 19 }

  /** `cardSchema`: lengths are counted in characters, spaces included. */
  predicate CardSchemaAccepts(data: CardFormData)
  {
    && CardNumberLengthOk(data.cardNumber)
    && |data.cardHolder| >= 3
    && MatchesExpiryPattern(data.expiryDate)
    && 3 <= |data.cvv| <= 4
  }

  /** A form filled through both formatters is accepted exactly when the
      holder has three characters, four expiry digits were typed, the CVV
      has three or four characters, and the card field either holds at
      least 13 digits (13 digits format to 16 characters) or holds fewer
      than four digits, is left as typed, and is 16 to 19 characters long.
      In particular a full 16-digit number (19 characters once formatted)
      passes, and so does a card number with no digits at all. */
  lemma FormattedFormAccepted(cardInput: string, holder: string, expiryInput: string, cvv: string)
    ensures CardSchemaAccepts(CardFormData(CardNumberText(cardInput), holder, ExpiryText(expiryInput), cvv))
        <==> && (|DigitsOnly(cardInput)| >= 13 || (|DigitsOnly(cardInput)| < 4 && 16 <= |cardInput| <= 19))
             && |holder| >= 3 && |DigitsOnly(expiryInput)| >= 4 && 3 <= |cvv| <= 4
  {
    if |DigitsOnly(cardInput)| >= 4 {
      FormattedCardNumber(cardInput);
    } else {
      ShortCardInputUnchanged(cardInput);
    }
    ExpiryMatchesPatternIff(expiryInput);
  }

  /** A string without digits has no digits to keep. */
  lemma {:induction false} NoDigitsKept(s: string)
    requires forall i :: 0 <= i < |s| ==> !IsDigit(s[i])
    ensures DigitsOnly(s) == ""
    decreases |s|
  {
    if s != [] {
      NoDigitsKept(s[..|s| - 1]);
    }
  }

  /** Sixteen letters in the card field, which the formatter leaves as they
      are, pass the card schema together with a valid holder, expiry and
      CVV. */
  lemma LetterCardNumberAccepted()
    ensures CardSchemaAccepts(CardFormData(CardNumberText("abcdefghijklmnop"), "Bob", ExpiryText("1226"), "123"))
  {
    NoDigitsKept("abcdefghijklmnop");
    assert AllDigits("1226");
    DigitsKept("1226");
    FormattedFormAccepted("abcdefghijklmnop", "Bob", "1226", "123");
  }
}
