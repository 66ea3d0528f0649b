/**
 * The JSON values a scoring-API request carries and the field validators
 * of the request-validation framework (W3_OOP/api_handler/api.py; the
 * earlier revision W3_OOP/api.py has the same validators). A validator
 * either accepts a value or raises ValueError with a fixed message; here it
 * returns the message, or None.
 */
module ApiFields {
  import opened Wrappers
  import opened Text

  /** A decoded JSON value. An object keeps its keys in document order. */
  datatype Value =
    | VNull
    | VBool(b: bool)
    | VInt(i: int)
    | VReal(r: real)
    | VStr(s: String)
    | VList(items: seq<Value>)
    | VDict(entries: seq<(String, Value)>)

  /** `value in EMPTY_VALUES`: equal to None, '', [], () or {}. */
  predicate IsEmpty(v: Value)
  {
    v == VNull || v == VStr([]) || v == VList([]) || v == VDict([])
  }

  /** The field classes. */
  datatype Kind = Char | Arguments | Email | Phone | Date | BirthDay | Gender | ClientIds

  /** strptime(str(label), '%d.%m.%Y') succeeds, and the year is more than 70 years before the current one. */
  datatype Calendar = Calendar(parsesDate: Value -> bool, olderThan70: Value -> bool)

  const CharMsg: String := "CharField accepts only string type"
  const ArgumentsMsg: String := "ArgumentsField accepts only dict type"
  const EmailMsg: String := "Here is not valid e-mail address"
  const PhoneMsg: String := "phone number should have 11 digits and start with 7"
  const DateMsg: String := "Incorrect date format, should be DD-MM-YYYY"
  const BirthDayMsg: String := "Birthday year cannot be higher than 70 years from now"
  const GenderMsg: String := "Incorrect value for gender field"
  const ClientIdsMsg: String := "Client Ids should be a list"

  // ---------------------------------------------------------------------
  // E-mail: the pattern ^[A-Za-z0-9\.\+_-]+@[A-Za-z0-9\._-]+\.[a-zA-Z]*$

  predicate IsAsciiAlnum(c: char) { IsAsciiLetter(c) || IsAsciiDigit(c) }

  predicate LocalChar(c: char) { IsAsciiAlnum(c) || c == '.' || c == '+' || c == '_' || c == '-' }

  predicate DomainChar(c: char) { IsAsciiAlnum(c) || c == '.' || c == '_' || c == '-' }

  predicate AllOf(s: String, p: char -> bool) { forall i :: 0 <= i < |s| ==> p(s[i]) }

  /**
   * The whole string matches: a non-empty local part before the first '@';
   * after it, a run of letters at the very end preceded by a '.', which is
   * preceded by a non-empty domain part. The letter run is the longest one
   * at the end, since the character before it is a '.'.
   */
  predicate EmailShape(s: String)
  {
    var local := BeforeFirst(s, '@');
    && |local| < |s| && local != [] && AllOf(local, LocalChar)
    && var rest := s[|local| + 1..];
       var k := |rest| - TrailingCount(rest, IsAsciiLetter) - 1;
       k >= 1 && rest[k] == '.' && AllOf(rest[..k], DomainChar)
  }

  /** `re.match` of the pattern: `$` also matches just before a final newline. */
  predicate EmailMatches(s: String)
  {
    EmailShape(s) || (s != [] && s[|s| - 1] == '\n' && EmailShape(s[..|s| - 1]))
  }

  /** The e-mail examples: "hello@world.ru" matches; "haha@hoho" and "text" do not. */
  lemma EmailExamples()
    ensures EmailMatches("hello@world.ru")
    ensures !EmailMatches("haha@hoho")
    ensures !EmailMatches("text")
  {
    EmailGood();
    EmailNoDot();
    EmailNoAt();
  }

  lemma EmailGood()
    ensures EmailShape("hello@world.ru")
  {
    var s := "hello@world.ru";
    EmailGoodLocal();
    assert s[6..] == "world.ru";
    EmailGoodRest();
  }

  lemma EmailGoodLocal()
    ensures BeforeFirst("hello@world.ru", '@') == "hello"
    ensures AllOf("hello", LocalChar)
  {
    BeforeFirstOfConcat("hello", '@', "@world.ru");
    assert "hello@world.ru" == "hello" + "@world.ru";
  }

  lemma EmailGoodRest()
    ensures TrailingCount("world.ru", IsAsciiLetter) == 2
    ensures "world.ru"[5] == '.' && AllOf("world.ru"[..5], DomainChar)
  {
    assert "world.ru"[..7] == "world.r";
    assert "world.r"[..6] == "world.";
    assert TrailingCount("world.", IsAsciiLetter) == 0;
    assert "world.ru"[..5] == "world";
  }

  lemma EmailNoDot()
    ensures !EmailMatches("haha@hoho")
  {
    var s := "haha@hoho";
    BeforeFirstOfConcat("haha", '@', "@hoho");
    assert s == "haha" + "@hoho";
    assert s[5..] == "hoho";
    assert TrailingCount("hoho", IsAsciiLetter) == 4 by {
      LeadingTrailingAllLetters("hoho");
    }
    assert s[|s| - 1] != '\n';
  }

  lemma LeadingTrailingAllLetters(s: String)
    requires AllOf(s, IsAsciiLetter)
    ensures TrailingCount(s, IsAsciiLetter) == |s|
  {
    TrailingCountSpec(s, IsAsciiLetter);
  }

  lemma EmailNoAt()
    ensures !EmailMatches("text")
  {
    assert BeforeFirst("text", '@') == "text" by {
      BeforeFirstNoSep("text", '@');
    }
    assert "text"[3] != '\n';
  }

  lemma {:induction false} BeforeFirstNoSep(s: String, c: char)
    requires c !in s
    ensures BeforeFirst(s, c) == s
    decreases |s|
  {
    if s != [] {
      BeforeFirstNoSep(s[1..], c);
      assert [s[0]] + s[1..] == s;
    }
  }

  // ---------------------------------------------------------------------
  // Phone

  /** 11 characters, starting with '7', all digits. */
  predicate PhoneShaped(s: String) { |s| == 11 && s[0] == '7' && AllDigits(s) }

  /**
   * `str(label)` has the phone shape. Only a string or an int can print as
   * digits: a float prints with '.', 'e', "inf" or "nan", a bool as
   * "True"/"False", a list or a dict with a bracket.
   */
  predicate PhoneOk(v: Value)
  {
    match v
    case VStr(s) => PhoneShaped(s)
    case VInt(i) => PhoneShaped(IntToDecimal(i))
    case _ => false
  }

  /** `label in [0, 1, 2]`, with Python's numeric equality (False == 0, True == 1, 1.0 == 1). */
  predicate IsGenderCode(v: Value)
  {
    match v
    case VInt(i) => 0 <= i <= 2
    case VBool(_) => true
    case VReal(r) => r == 0.0 || r == 1.0 || r == 2.0
    case _ => false
  }

  /** `validate(label)` of a field of the given class: the ValueError message, or None. */
  function Check(kind: Kind, v: Value, cal: Calendar): (error: Option<String>)
    ensures IsEmpty(v) ==> error == None
  {
    if IsEmpty(v) then None
    else match kind
      case Char => if v.VStr? then None else Some(CharMsg)
      case Arguments => if v.VDict? then None else Some(ArgumentsMsg)
      case Email =>
        if !v.VStr? then Some(CharMsg)
        else if !EmailMatches(v.s) then Some(EmailMsg)
        else None
      case Phone => if PhoneOk(v) then None else Some(PhoneMsg)
      case Date => if cal.parsesDate(v) then None else Some(DateMsg)
      case BirthDay =>
        if !cal.parsesDate(v) then Some(DateMsg)
        else if cal.olderThan70(v) then Some(BirthDayMsg)
        else None
      case Gender => if IsGenderCode(v) then None else Some(GenderMsg)
      case ClientIds => if v.VList? then None else Some(ClientIdsMsg)
  }

  /** The type checks: a non-empty value passes exactly when it has the field's type. */
  lemma TypeChecks(v: Value, cal: Calendar)
    ensures Check(Char, v, cal).None? <==> IsEmpty(v) || v.VStr?
    ensures Check(Arguments, v, cal).None? <==> IsEmpty(v) || v.VDict?
    ensures Check(ClientIds, v, cal).None? <==> IsEmpty(v) || v.VList?
    ensures Check(Gender, v, cal).None? <==> IsEmpty(v) || IsGenderCode(v)
  {
  }

  /** An e-mail field passes a non-empty value exactly when it is a string matching the pattern. */
  lemma EmailCheck(v: Value, cal: Calendar)
    ensures Check(Email, v, cal).None? <==> IsEmpty(v) || (v.VStr? && EmailMatches(v.s))
    ensures !IsEmpty(v) && !v.VStr? ==> Check(Email, v, cal) == Some(CharMsg)
  {
  }

  /** A birthday is checked for its format first, then for its age. */
  lemma BirthDayCheck(v: Value, cal: Calendar)
    ensures Check(BirthDay, v, cal).None? <==> IsEmpty(v) || (cal.parsesDate(v) && !cal.olderThan70(v))
    ensures !IsEmpty(v) && !cal.parsesDate(v) ==> Check(BirthDay, v, cal) == Some(DateMsg)
  {
  }

  /** A phone given as a string passes exactly when it is 11 digits starting with '7'. */
  lemma PhoneStringCheck(s: String, cal: Calendar)
    ensures Check(Phone, VStr(s), cal).None? <==> s == [] || (|s| == 11 && s[0] == '7' && AllDigits(s))
  {
  }

  /** A phone given as a number passes exactly when it lies in [70000000000, 80000000000). */
  lemma PhoneNumberCheck(i: int, cal: Calendar)
    ensures Check(Phone, VInt(i), cal).None? <==> 70000000000 <= i < 80000000000
  {
    if i < 0 {
      assert IntToDecimal(i)[0] == '-';
    } else {
      PhoneShapedRange(i);
    }
  }

  // ---------------------------------------------------------------------
  // The decimal facts behind PhoneNumberCheck

  /** An 11-digit numeral starting with '7' is exactly a number in [7 * 10^10, 8 * 10^10). */
  lemma PhoneShapedRange(n: nat)
    ensures PhoneShaped(NatToDecimal(n)) <==> 70000000000 <= n < 80000000000
  {
    var s := NatToDecimal(n);
    DecimalOfNatToDecimal(n);
    Pow10Ten();
    DecimalFront(s);
    DecimalValueBound(s[1..]);
    if PhoneShaped(s) {
      assert DigitValue(s[0]) == 7;
      assert Pow10(|s| - 1) == 10000000000;
    }
    if 70000000000 <= n < 80000000000 {
      NumeralLength(s);
      var k := |s|;
      assert k == 11 by {
        if k <= 10 {
          Pow10Monotone(k, 10);
        } else if k >= 12 {
          Pow10Monotone(11, k - 1);
        }
      }
      assert s[0] == '7' by {
        var d := DigitValue(s[0]);
        var r := DecimalValue(s[1..]);
        assert n == d * 10000000000 + r && r < 10000000000;
        assert d == 7;
      }
    }
  }

  lemma Pow10Ten()
    ensures Pow10(10) == 10000000000
    ensures Pow10(11) == 100000000000
  {
    assert Pow10(1) == 10;
    assert Pow10(2) == 100;
    assert Pow10(3) == 1000;
    assert Pow10(4) == 10000;
    assert Pow10(5) == 100000;
    assert Pow10(6) == 1000000;
    assert Pow10(7) == 10000000;
    assert Pow10(8) == 100000000;
    assert Pow10(9) == 1000000000;
  }

  lemma {:induction false} Pow10Monotone(i: nat, j: nat)
    requires i <= j
    ensures Pow10(i) <= Pow10(j)
    decreases j
  {
    if i < j {
      Pow10Monotone(i, j - 1);
    }
  }

  /** The value of a numeral, read from its first digit. */
  lemma {:induction false} DecimalFront(s: String)
    requires s != [] && AllDigits(s)
    ensures DecimalValue(s) == DigitValue(s[0]) * Pow10(|s| - 1) + DecimalValue(s[1..])
    decreases |s|
  {
    if |s| > 1 {
      var init := s[..|s| - 1];
      DecimalFront(init);
      var d := DigitValue(s[0]);
      var p := Pow10(|s| - 2);
      var last := DigitValue(s[|s| - 1]);
      var mid := DecimalValue(init[1..]);
      assert s[1..][..|s| - 2] == init[1..];
      assert DecimalValue(s[1..]) == 10 * mid + last;
      assert DecimalValue(s) == 10 * (d * p + mid) + last;
      ShiftDigit(d, p, mid, last);
    } else {
      assert s[1..] == [];
    }
  }

  lemma ShiftDigit(d: int, p: int, mid: int, last: int)
    ensures 10 * (d * p + mid) + last == d * (10 * p) + (10 * mid + last)
  {
  }

  /** A numeral without a leading zero lies between 10^(len-1) and 10^len. */
  lemma NumeralLength(s: String)
    requires s != [] && AllDigits(s) && (|s| > 1 ==> s[0] != '0')
    ensures |s| > 1 ==> Pow10(|s| - 1) <= DecimalValue(s)
    ensures DecimalValue(s) < Pow10(|s|)
  {
    DecimalValueBound(s);
    if |s| > 1 {
      DecimalFront(s);
      AtLeastOnce(DigitValue(s[0]), Pow10(|s| - 1));
    }
  }

  lemma AtLeastOnce(d: nat, p: nat)
    requires d >= 1
    ensures d * p >= p
  {
    assert d * p == p + (d - 1) * p;
  }
}
