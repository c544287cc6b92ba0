/**
 * The quote-number counter: a hook whose effect either adopts an existing number or takes
 * the next one from the persisted `lastQuoteNumber` counter, and the zero-padded display.
 * The counter lives in localStorage as a decimal string; sessionStorage holds a
 * `currentQuoteNumber` key that the effect only ever removes.
 */
module QuoteNumber {
  import opened Wrappers
  import Text

  const QuoteNumberKey := "lastQuoteNumber"
  const CurrentQuoteKey := "currentQuoteNumber"

  // ---- Decimal strings: `toString` and `parseInt` on integers -------------------------------

  /** What `parseInt` yields: an integer, or NaN. */
  datatype IntLike = Int(n: int) | NaN

  predicate IsDigit(c: char) { '0' <= c <= '9' }

  predicate AllDigits(s: string)
  {
    forall i :: 0 <= i < |s| ==> IsDigit(s[i])
  }

  function Digit(d: nat): (c: char)
    requires d < 10
    ensures IsDigit(c)
  {
    ('0' as int + d) as char
  }

  /** The decimal digits of a natural number, most significant first, with no leading zero. */
  function NatToDecimal(n: nat): (s: string)
    ensures |s| > 0 && AllDigits(s)
    ensures |s| > 1 ==> s[0] != '0'
  {
    if n < 10 then [Digit(n)] else NatToDecimal(n / 10) + [Digit(n % 10)]
  }

  /** `n.toString()` for an integer. */
  function IntToString(n: int): string
  {
    if n < 0 then "-" + NatToDecimal(-n) else NatToDecimal(n)
  }

  /** The longest run of digits at the start of `s`. */
  function DigitPrefix(s: string): (r: string)
    ensures |r| <= |s| && r == s[..|r|] && AllDigits(r)
    ensures |r| < |s| ==> !IsDigit(s[|r|])
  {
    if s != [] && IsDigit(s[0]) then [s[0]] + DigitPrefix(s[1..]) else []
  }

  /** The value of a string of decimal digits, read left to right. */
  function DecimalValue(ds: string): nat
    requires AllDigits(ds)
  {
    if ds == [] then 0 else DecimalValue(ds[..|ds| - 1]) * 10 + (ds[|ds| - 1] as int - '0' as int)
  }

  /**
   * `parseInt(s)`: leading white space is skipped, an optional sign is read, then the longest
   * run of decimal digits; without any digit the result is NaN.
   */
  function ParseInt(s: string): IntLike
  {
    var t := Text.TrimStart(s);
    var negative := t != [] && t[0] == '-';
    var unsigned := if t != [] && (t[0] == '-' || t[0] == '+') then t[1..] else t;
    var ds := DigitPrefix(unsigned);
    if ds == [] then NaN
    else if negative then Int(0 - DecimalValue(ds))
    else Int(DecimalValue(ds))
  }

  lemma {:induction false} DecimalValueOfNat(n: nat)
    ensures DecimalValue(NatToDecimal(n)) == n
  {
    if n >= 10 {
      var s := NatToDecimal(n / 10);
      var t := s + [Digit(n % 10)];
      assert t[..|t| - 1] == s;
      DecimalValueOfNat(n / 10);
    }
  }

  lemma {:induction false} DigitPrefixOfDigits(s: string)
    requires AllDigits(s)
    ensures DigitPrefix(s) == s
  {
    if s != [] {
      assert AllDigits(s[1..]);
      DigitPrefixOfDigits(s[1..]);
    }
  }

  /** `parseInt` reads back what `toString` writes: the counter survives storage. */
  lemma ParseIntOfToString(n: int)
    ensures ParseInt(IntToString(n)) == Int(n)
  {
    var s := IntToString(n);
    if n < 0 {
      var m: nat := -n;
      assert s == "-" + NatToDecimal(m);
      ParseIntOfNegativeNat(m);
      assert ParseInt(s) == Int(0 - m);
    } else {
      assert s == NatToDecimal(n);
      ParseIntOfNat(n);
    }
  }

  lemma ParseIntOfNat(m: nat)
    ensures ParseInt(NatToDecimal(m)) == Int(m)
  {
    DecimalValueOfNat(m);
    ParseIntOfDigits(NatToDecimal(m));
  }

  lemma ParseIntOfNegativeNat(m: nat)
    ensures ParseInt("-" + NatToDecimal(m)) == Int(0 - m)
  {
    var ds := NatToDecimal(m);
    DecimalValueOfNat(m);
    ParseIntOfNegative(ds);
    assert DecimalValue(ds) == m;
  }

  lemma ParseIntOfDigits(ds: string)
    requires ds != [] && AllDigits(ds)
    ensures ParseInt(ds) == Int(DecimalValue(ds))
  {
    assert !Text.IsSpace(ds[0]);
    assert Text.TrimStart(ds) == ds;
    DigitPrefixOfDigits(ds);
  }

  lemma ParseIntOfNegative(ds: string)
    requires ds != [] && AllDigits(ds)
    ensures ParseInt("-" + ds) == Int(0 - DecimalValue(ds))
  {
    var s := "-" + ds;
    assert s[0] == '-' && s[1..] == ds;
    assert !Text.IsSpace(s[0]);
    assert Text.TrimStart(s) == s;
    DigitPrefixOfDigits(ds);
  }

  // ---- The next number and its display --------------------------------------------------

  /**
   * The counter text `(parseInt(localStorage.getItem(key) || "0") + 1).toString()`;
   * once the stored text does not parse, it is "NaN".
   */
  function NextNumber(local: map<string, string>): string
  {
    var last := if QuoteNumberKey in local && local[QuoteNumberKey] != "" then local[QuoteNumberKey] else "0";
    match ParseInt(last)
    case Int(n) => IntToString(n + 1)
    case NaN => "NaN"
  }

  /** `s.padStart(width, c)`: `c` repeated in front of `s` up to `width` characters. */
  function PadStart(s: string, width: nat, c: char): (r: string)
    ensures |r| == if |s| >= width then |s| else width
    ensures r[|r| - |s|..] == s
    ensures forall i :: 0 <= i < |r| - |s| ==> r[i] == c
  {
    if |s| >= width then s else [c] + PadStart(s, width - 1, c)
  }

  /** `quoteNumber ? quoteNumber.padStart(3, "0") : ""`. */
  function Formatted(quoteNumber: Option<string>): (r: string)
    ensures quoteNumber.Some? && quoteNumber.value != "" ==>
              |r| >= 3 && |r| >= |quoteNumber.value| && r[|r| - |quoteNumber.value|..] == quoteNumber.value
    ensures quoteNumber.None? || quoteNumber.value == "" ==> r == ""
  {
    match quoteNumber
    case Some(q) => if q == "" then "" else PadStart(q, 3, '0')
    case None => ""
  }

  /** A present, non-empty existing number (`if (existingNumber)`). */
  predicate Given(existingNumber: Option<string>)
  {
    existingNumber.Some? && existingNumber.value != ""
  }

  /** The browser's two key/value stores as far as the counter uses them. */
  class WebStorage {
    var local: map<string, string>
    var session: map<string, string>

    constructor(local: map<string, string>, session: map<string, string>)
      ensures this.local == local && this.session == session
    {
      this.local := local;
      this.session := session;
    }

    /** `getCurrentQuoteNumber()`: the last issued counter text, or null. */
    function CurrentQuoteNumber(): (r: Option<string>)
      reads this
      ensures r.Some? <==> QuoteNumberKey in local
      ensures r.Some? ==> r.value == local[QuoteNumberKey]
    {
      if QuoteNumberKey in local then Some(local[QuoteNumberKey]) else None
    }

    /** `clearCurrentQuoteNumber()`: removes only the session key. */
    method ClearCurrentQuoteNumber()
      modifies this
      ensures session == old(session) - {CurrentQuoteKey}
      ensures local == old(local)
    {
      session := session - {CurrentQuoteKey};
    }
  }

  /** The `useQuoteNumber` hook: its state and the storage its effect works on. */
  class QuoteNumberHook {
    const storage: WebStorage
    var quoteNumber: Option<string>

    constructor(storage: WebStorage)
      ensures this.storage == storage && quoteNumber == None
    {
      this.storage := storage;
      quoteNumber := None;
    }

    /** The effect run on mount and whenever its inputs change. */
    method RunEffect(shouldGenerate: bool, existingNumber: Option<string>)
      modifies this, storage
      ensures storage.session == old(storage.session) - {CurrentQuoteKey}
      ensures Given(existingNumber) ==>
                quoteNumber == existingNumber && storage.local == old(storage.local)
      ensures !Given(existingNumber) && shouldGenerate ==>
                && storage.local == old(storage.local)[QuoteNumberKey := NextNumber(old(storage.local))]
                && quoteNumber == Some(NextNumber(old(storage.local)))
                && storage.CurrentQuoteNumber() == quoteNumber
      ensures !Given(existingNumber) && !shouldGenerate ==>
                quoteNumber == old(quoteNumber) && storage.local == old(storage.local)
    {
      storage.session := storage.session - {CurrentQuoteKey};
      if Given(existingNumber) {
        quoteNumber := existingNumber;
        return;
      }
      if shouldGenerate {
        var next := NextNumber(storage.local);
        storage.local := storage.local[QuoteNumberKey := next];
        quoteNumber := Some(next);
      }
    }

    /** The string the hook returns. */
    function Display(): string
      reads this
    {
      Formatted(quoteNumber)
    }
  }

  // ---- Properties -------------------------------------------------------------------------

  /** Two generating runs in a row issue n + 1 and then n + 2: no number is reused. */
  lemma {:induction false} ConsecutiveNumbers(local: map<string, string>, n: int)
    requires QuoteNumberKey in local && local[QuoteNumberKey] == IntToString(n)
    ensures NextNumber(local) == IntToString(n + 1)
    ensures NextNumber(local[QuoteNumberKey := NextNumber(local)]) == IntToString(n + 2)
  {
    ParseIntOfToString(n);
    assert IntToString(n) != "";
    ParseIntOfToString(n + 1);
    assert IntToString(n + 1) != "";
  }

  /** With no counter stored, the first quote is number 1, shown as "001". */
  lemma FirstNumber(local: map<string, string>)
    requires QuoteNumberKey !in local
    ensures NextNumber(local) == "1"
    ensures Formatted(Some(NextNumber(local))) == "001"
  {
    assert NatToDecimal(0) == "0";
    ParseIntOfDigits("0");
    assert DecimalValue("0") == 0;
    assert NatToDecimal(1) == "1";
    assert PadStart("1", 1, '0') == "1";
    assert PadStart("1", 2, '0') == "01";
  }

  /** A counter text that does not parse keeps the counter at "NaN" for good. */
  lemma NaNIsSticky(local: map<string, string>)
    requires QuoteNumberKey in local && local[QuoteNumberKey] == "NaN"
    ensures NextNumber(local) == "NaN"
  {
    assert !Text.IsSpace('N');
    assert Text.TrimStart("NaN") == "NaN";
    assert DigitPrefix("NaN") == "";
  }

  /** 7 becomes "007"; 123 and 1000 are already wide enough. */
  lemma FormatExamples()
    ensures Formatted(Some("7")) == "007"
    ensures Formatted(Some("123")) == "123"
    ensures Formatted(Some("1000")) == "1000"
  {
    assert PadStart("7", 1, '0') == "7";
    assert PadStart("7", 2, '0') == "07";
  }

  /** Two runs of the effect for brand-new quotes. */
  method TwoNewQuotes(h: QuoteNumberHook, n: int) returns (first: string, second: string)
    requires QuoteNumberKey in h.storage.local && h.storage.local[QuoteNumberKey] == IntToString(n)
    modifies h, h.storage
    ensures first == IntToString(n + 1) && second == IntToString(n + 2)
    ensures QuoteNumberKey in h.storage.local && h.storage.local[QuoteNumberKey] == second
    ensures CurrentQuoteKey !in h.storage.session
  {
    ConsecutiveNumbers(h.storage.local, n);
    h.RunEffect(true, None);
    first := h.quoteNumber.value;
    h.RunEffect(true, None);
    second := h.quoteNumber.value;
  }
}
