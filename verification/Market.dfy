/** Printing and parsing of account ids, joining and splitting of currency pairs. */
module Markets {
  import opened Domain

  datatype AccountId = AccountId(exchange: string, number: nat)

  datatype ParseError = NoSeparator | BadExchangePart | BadNumber

  datatype Parsed = Ok(id: AccountId) | Err(error: ParseError)

  // ---- strings ----

  /** Splits at the last separator; `None` when there is none. */
  function RSplitOnce(s: string, sep: char): (r: Option<(string, string)>)
    ensures r.None? <==> sep !in s
    ensures r.Some? ==> s == r.value.0 + [sep] + r.value.1 && sep !in r.value.1
  {
    if s == "" then None
    else
      var n := |s| - 1;
      assert s == s[..n] + [s[n]];
      if s[n] == sep then Some((s[..n], ""))
      else
        match RSplitOnce(s[..n], sep)
        case None => None
        case Some((left, right)) => Some((left, right + [s[n]]))
  }

  /** Splits at the first separator; `None` when there is none. */
  function SplitOnce(s: string, sep: char): (r: Option<(string, string)>)
    ensures r.None? <==> sep !in s
    ensures r.Some? ==> s == r.value.0 + [sep] + r.value.1 && sep !in r.value.0
  {
    if s == "" then None
    else
      assert s == [s[0]] + s[1..];
      if s[0] == sep then Some(("", s[1..]))
      else
        match SplitOnce(s[1..], sep)
        case None => None
        case Some((left, right)) => Some(([s[0]] + left, right))
  }

  /** There is only one way to split at the last separator. */
  lemma {:induction false} RSplitIsUnique(a: string, b: string, sep: char)
    requires sep !in b
    ensures RSplitOnce(a + [sep] + b, sep) == Some((a, b))
    decreases |b|
  {
    var s := a + [sep] + b;
    if b == "" {
      assert s[..|s| - 1] == a;
    } else {
      var m := |b| - 1;
      assert s[..|s| - 1] == a + [sep] + b[..m];
      assert b == b[..m] + [b[m]];
      RSplitIsUnique(a, b[..m], sep);
    }
  }

  lemma {:induction false} SplitIsUnique(a: string, b: string, sep: char)
    requires sep !in a
    ensures SplitOnce(a + [sep] + b, sep) == Some((a, b))
    decreases |a|
  {
    var s := a + [sep] + b;
    if a == "" {
      assert s[1..] == b;
    } else {
      assert s[1..] == a[1..] + [sep] + b;
      assert a == [a[0]] + a[1..];
      SplitIsUnique(a[1..], b, sep);
    }
  }

  // ---- numbers ----

  predicate IsDigit(c: char) {
    '0' <= c <= '9'
  }

  function DigitValue(c: char): (d: nat)
    requires IsDigit(c)
    ensures d < 10
  {
    c as int - '0' as int
  }

  function Digit(d: nat): (c: char)
    requires d < 10
    ensures IsDigit(c) && DigitValue(c) == d
  {
    (d + '0' as int) as char
  }

  function PrintNumber(n: nat): (s: string)
    ensures s != "" && forall c :: c in s ==> IsDigit(c)
  {
    if n < 10 then [Digit(n)] else PrintNumber(n / 10) + [Digit(n % 10)]
  }

  /** Reads digits as `u8::from_str` does: an error as soon as a digit is wrong or the value too large. */
  function ReadDigits(s: string): (r: Option<nat>)
    ensures r.Some? ==> r.value <= 255
  {
    if s == "" then Some(0)
    else
      var n := |s| - 1;
      match ReadDigits(s[..n])
      case None => None
      case Some(high) =>
        if !IsDigit(s[n]) || high * 10 + DigitValue(s[n]) > 255 then None else Some(high * 10 + DigitValue(s[n]))
  }

  /** `u8::from_str`: a leading '+' is allowed, leading zeros are, an empty number is not. */
  function ParseNumber(s: string): (r: Option<nat>)
    ensures r.Some? ==> r.value <= 255
  {
    if s == "" || s == "+" then None
    else if s[0] == '+' then ReadDigits(s[1..])
    else ReadDigits(s)
  }

  lemma {:induction false} ReadsPrinted(n: nat)
    requires n <= 255
    ensures ReadDigits(PrintNumber(n)) == Some(n)
  {
    var s := PrintNumber(n);
    if n < 10 {
      assert s[..0] == "";
    } else {
      ReadsPrinted(n / 10);
      assert s[..|s| - 1] == PrintNumber(n / 10);
    }
  }

  lemma NumberRoundTrip(n: nat)
    requires n <= 255
    ensures ParseNumber(PrintNumber(n)) == Some(n)
  {
    ReadsPrinted(n);
    assert PrintNumber(n)[0] in PrintNumber(n);
  }

  /** A number as it is printed: digits without leading zeros. */
  predicate Canonical(s: string) {
    s != "" && (forall c :: c in s ==> IsDigit(c)) && (|s| > 1 ==> s[0] != '0')
  }

  lemma {:induction false} PrintedIsCanonical(n: nat)
    ensures Canonical(PrintNumber(n)) && (n > 0 ==> PrintNumber(n)[0] != '0')
  {
    if n >= 10 {
      PrintedIsCanonical(n / 10);
    }
  }

  lemma {:induction false} CanonicalIsPrinted(s: string)
    requires Canonical(s) && ReadDigits(s).Some?
    ensures PrintNumber(ReadDigits(s).value) == s
    ensures s[0] != '0' ==> ReadDigits(s).value > 0
    decreases |s|
  {
    var n := |s| - 1;
    var prefix := s[..n];
    assert s == prefix + [s[n]];
    if n > 0 {
      assert Canonical(prefix) && prefix[0] == s[0];
      CanonicalIsPrinted(prefix);
      var high, low := ReadDigits(prefix).value, DigitValue(s[n]);
      assert (high * 10 + low) / 10 == high && (high * 10 + low) % 10 == low;
      assert high > 0;
    } else {
      assert prefix == "";
    }
  }

  // ---- account ids ----

  /** One plus sign in front of a number changes nothing, and alone it is no number. */
  lemma PlusIsIgnored(s: string)
    ensures ParseNumber("+") == None
    ensures s != "" && s[0] != '+' ==> ParseNumber("+" + s) == ParseNumber(s)
  {
    assert ("+" + s)[1..] == s;
  }

  predicate AllowedChar(c: char) {
    'a' <= c <= 'z' || 'A' <= c <= 'Z' || IsDigit(c) || c == '-' || c == '.'
  }

  /** Small letters, capital letters, digits, a dash and a dot are allowed in an exchange part, and nothing else. */
  lemma AllowedCharsAre(c: char)
    ensures AllowedChar(c) <==>
            || c in {'a', 'b', 'c', 'd', 'e', 'f', 'g', 'h', 'i', 'j', 'k', 'l', 'm'}
            || c in {'n', 'o', 'p', 'q', 'r', 's', 't', 'u', 'v', 'w', 'x', 'y', 'z'}
            || c in {'A', 'B', 'C', 'D', 'E', 'F', 'G', 'H', 'I', 'J', 'K', 'L', 'M'}
            || c in {'N', 'O', 'P', 'Q', 'R', 'S', 'T', 'U', 'V', 'W', 'X', 'Y', 'Z'}
            || c in {'0', '1', '2', '3', '4', '5', '6', '7', '8', '9', '-', '.'}
  {
  }

  predicate Allowed(s: string) {
    forall c :: c in s ==> AllowedChar(c)
  }

  function Print(id: AccountId): string {
    id.exchange + "_" + PrintNumber(id.number)
  }

  function Parse(s: string): (r: Parsed) {
    match RSplitOnce(s, '_')
    case None => Err(NoSeparator)
    case Some((exchange, number)) =>
      if !Allowed(exchange) then Err(BadExchangePart)
      else
        match ParseNumber(number)
        case None => Err(BadNumber)
        case Some(n) => Ok(AccountId(exchange, n))
  }

  /** Printing and parsing gives the id back exactly when its exchange part has only allowed characters;
      otherwise that part is what is rejected. */
  lemma PrintThenParse(id: AccountId)
    requires id.number <= 255
    ensures Parse(Print(id)) == if Allowed(id.exchange) then Ok(id) else Err(BadExchangePart)
  {
    NumberRoundTrip(id.number);
    RSplitIsUnique(id.exchange, PrintNumber(id.number), '_');
  }

  lemma PrintIsInjective(a: AccountId, b: AccountId)
    requires a.number <= 255 && b.number <= 255 && Print(a) == Print(b)
    ensures a == b
  {
    RSplitIsUnique(a.exchange, PrintNumber(a.number), '_');
    RSplitIsUnique(b.exchange, PrintNumber(b.number), '_');
    ReadsPrinted(a.number);
    ReadsPrinted(b.number);
  }

  /** What is accepted: an allowed exchange part, a separator and a number of one byte. */
  lemma ParsedHasParts(s: string)
    requires Parse(s).Ok?
    ensures var id := Parse(s).id;
            && Allowed(id.exchange) && id.number <= 255
            && (exists number ::
                  s == id.exchange + "_" + number && '_' !in number && ParseNumber(number) == Some(id.number))
  {
    var r := RSplitOnce(s, '_').value;
    assert s == Parse(s).id.exchange + "_" + r.1;
  }

  /** Parsing and printing gives the text back exactly when its number is written without '+' and without
      leading zeros. */
  lemma ParseThenPrintIff(s: string)
    requires Parse(s).Ok?
    ensures Print(Parse(s).id) == s <==> Canonical(RSplitOnce(s, '_').value.1)
  {
    var id := Parse(s).id;
    var (exchange, number) := RSplitOnce(s, '_').value;
    if Canonical(number) {
      assert number[0] in number;
      CanonicalIsPrinted(number);
    }
    if Print(id) == s {
      RSplitIsUnique(exchange, PrintNumber(id.number), '_');
      PrintedIsCanonical(id.number);
    }
  }

  // ---- currency pairs ----

  /** What is needed of lower-casing, of which Unicode has more than one kind: it makes no '/'. */
  ghost predicate KeepsSlashAway(lower: string -> string) {
    forall s :: '/' !in s ==> '/' !in lower(s)
  }

  /** The text of a code made by `CurrencyCode::new` stays as it is when it is lower-cased again. */
  predicate IsCode(lower: string -> string, code: string) {
    lower(code) == code
  }

  function FromCodes(base: string, quote: string): string {
    base + "/" + quote
  }

  /** `None` is the panic on a text without '/'. */
  function ToCodes(lower: string -> string, pair: string): Option<(string, string)> {
    match SplitOnce(pair, '/')
    case None => None
    case Some((base, quote)) => Some((lower(base), lower(quote)))
  }

  /** Splitting undoes joining exactly when the base code has no '/', whatever lower-casing does to letters. */
  lemma CodesRoundTripIff(lower: string -> string, base: string, quote: string)
    requires KeepsSlashAway(lower) && IsCode(lower, base) && IsCode(lower, quote)
    ensures ToCodes(lower, FromCodes(base, quote)) == Some((base, quote)) <==> '/' !in base
  {
    var pair := FromCodes(base, quote);
    assert pair == base + ['/'] + quote;
    if '/' !in base {
      SplitIsUnique(base, quote, '/');
    } else {
      assert '/' in pair;
      assert '/' !in lower(SplitOnce(pair, '/').value.0);
    }
  }

  function LowerChar(c: char): char {
    if 'A' <= c <= 'Z' then (c as int + 32) as char else c
  }

  /** Capital letters become the small ones in order, and every other character stays. */
  lemma LowerCharIs(c: char)
    ensures LowerChar('A') == 'a' && LowerChar('M') == 'm' && LowerChar('Z') == 'z'
    ensures 'A' <= c <= 'Z' ==> LowerChar(c) as int - 'a' as int == c as int - 'A' as int
    ensures c < 'A' || 'Z' < c ==> LowerChar(c) == c
  {
  }

  function AsciiLower(s: string): (r: string)
    ensures |r| == |s| && forall i :: 0 <= i < |s| ==> r[i] == LowerChar(s[i])
  {
    seq(|s|, i requires 0 <= i < |s| => LowerChar(s[i]))
  }

  /** On ASCII text lower-casing is such a function, and what it gives is a code. */
  lemma AsciiLowerMakesCodes(s: string)
    ensures KeepsSlashAway(AsciiLower) && IsCode(AsciiLower, AsciiLower(s))
  {
    assert AsciiLower(AsciiLower(s)) == AsciiLower(s);
    forall t | '/' !in t ensures '/' !in AsciiLower(t) {
      assert forall i :: 0 <= i < |t| ==> AsciiLower(t)[i] == LowerChar(t[i]) && t[i] != '/';
    }
  }

  /** Different pairs of such codes have different texts, and so different ids. */
  lemma FromCodesIsInjective(base: string, quote: string, base': string, quote': string)
    requires '/' !in base && '/' !in base' && FromCodes(base, quote) == FromCodes(base', quote')
    ensures base == base' && quote == quote'
  {
    SplitIsUnique(base, quote, '/');
    SplitIsUnique(base', quote', '/');
  }
}
