/** Cleaning of the raw sales table, shared by `load_and_clean_data`, `clean_sales_data` and
    `load_and_prepare_data`: strip everything but digits, ',', '.' and '-' from the unit
    price, turn the decimal comma into a point, convert the price column to float (the whole
    conversion fails on one malformed price), coerce the quantity column to numbers (a
    non-numeric quantity becomes missing), and either keep the rows with positive quantity
    and price or compute the measured demand of every row. */
module SalesCleaning {
  import opened Common

  // ---------------------------------------------------------------------------------------
  // re.sub(r'[^\d,.-]', '', x)

  predicate IsDigit(c: char)
  {
    '0' <= c <= '9'
  }

  /** The characters the price sanitisation keeps. */
  predicate Allowed(c: char)
  {
    IsDigit(c) || c == ',' || c == '.' || c == '-'
  }

  function Sanitize(s: string): (r: string)
    ensures forall i :: 0 <= i < |r| ==> Allowed(r[i])
    ensures forall i :: 0 <= i < |s| && Allowed(s[i]) ==> s[i] in r
  {
    Filter(s, Allowed)
  }

  /** Sanitising keeps the allowed characters in their original order and removes every
      other character, so it keeps exactly as many characters as are allowed, and a second
      sanitisation changes nothing. */
  lemma SanitizeKeepsAllowedInOrder(s: string)
    ensures IsSubsequence(Sanitize(s), s)
    ensures |Sanitize(s)| == CountWhere(s, Allowed)
    ensures Sanitize(Sanitize(s)) == Sanitize(s)
  {
    FilterIsSubsequence(s, Allowed);
    FilterLength(s, Allowed);
    FilterKeepsAll(Sanitize(s), Allowed);
  }

  // ---------------------------------------------------------------------------------------
  // .str.replace(',', '.')

  function CommaToPoint(s: string): (r: string)
    ensures |r| == |s|
    ensures forall i :: 0 <= i < |s| ==> r[i] == if s[i] == ',' then '.' else s[i]
  {
    seq(|s|, i requires 0 <= i < |s| => if s[i] == ',' then '.' else s[i])
  }

  /** The replacement leaves no comma, and after sanitising only digits, points and minus
      signs remain. */
  lemma CommaToPointAlphabet(s: string)
    ensures ',' !in CommaToPoint(s)
    ensures forall i :: 0 <= i < |CommaToPoint(Sanitize(s))| ==>
      IsDigit(CommaToPoint(Sanitize(s))[i]) || CommaToPoint(Sanitize(s))[i] in ".-"
  {
    var r := CommaToPoint(s);
    assert forall i :: 0 <= i < |r| ==> r[i] != ',';
  }

  // ---------------------------------------------------------------------------------------
  // .astype(float) on the sanitised alphabet

  function DigitValue(c: char): nat
    requires IsDigit(c)
  {
    (c as int) - ('0' as int)
  }

  predicate AllDigits(s: string)
  {
    forall i :: 0 <= i < |s| ==> IsDigit(s[i])
  }

  /** The number a string of decimal digits denotes. */
  function DigitsValue(s: string): nat
    requires AllDigits(s)
  {
    if |s| == 0 then 0 else DigitsValue(s[..|s| - 1]) * 10 + DigitValue(s[|s| - 1])
  }

  function Pow10(n: nat): (r: nat)
    ensures 0 < r
  {
    if n == 0 then 1 else 10 * Pow10(n - 1)
  }

  /** The position of the first `c` in `s`. */
  function IndexOf(s: string, c: char): (r: nat)
    requires c in s
    ensures r < |s| && s[r] == c && c !in s[..r]
  {
    if s[0] == c then 0
    else
      var k := IndexOf(s[1..], c);
      assert s[..k + 1] == [s[0]] + s[1..][..k];
      k + 1
  }

  /** The value of the decimal `ip.fp`. */
  function Decimal(ip: string, fp: string): real
    requires AllDigits(ip) && AllDigits(fp)
  {
    DigitsValue(ip) as real + DigitsValue(fp) as real / Pow10(|fp|) as real
  }

  /** Digits with an optional point: `digits ['.' digits]` with at least one digit in
      all, the forms Python's `float` accepts once signs, exponents, letters and blanks are
      gone. */
  function ParseUnsigned(s: string): (r: Option<real>)
    ensures r.Some? ==> 0.0 <= r.value
  {
    if '.' in s then
      var k := IndexOf(s, '.');
      var ip := s[..k];
      var fp := s[k + 1..];
      if AllDigits(ip) && AllDigits(fp) && 0 < |ip| + |fp| then Some(Decimal(ip, fp))
      else None
    else if AllDigits(s) && 0 < |s| then Some(DigitsValue(s) as real)
    else None
  }

  /** Python's `float` on a string of digits, points and minus signs: an optional leading
      minus sign followed by an unsigned decimal. `None` stands for the ValueError. */
  function ParseFloat(s: string): (r: Option<real>)
    ensures r.Some? && (|s| == 0 || s[0] != '-') ==> 0.0 <= r.value
  {
    if 0 < |s| && s[0] == '-' then
      match ParseUnsigned(s[1..])
      case None => None
      case Some(x) => Some(-x)
    else ParseUnsigned(s)
  }

  /** The empty string, a lone sign, a lone point, a misplaced sign and a string with two
      points, such as "1.2.3", are rejected. */
  lemma MalformedPricesRejected()
    ensures ParseFloat("") == None
    ensures ParseFloat("-") == None
    ensures ParseFloat(".") == None
    ensures ParseFloat("1.2.3") == None
    ensures ParseFloat("1-2") == None
  {
    assert "1.2.3"[0] != '.' && "1.2.3"[1] == '.';
    assert IndexOf("1.2.3", '.') == 1;
    assert "1.2.3"[2..] == "2.3" && "2.3"[1] == '.';
    assert "1-2"[1] == '-';
    assert '.' !in "1-2";
    assert "-"[1..] == "";
    assert "."[..0] == "" && "."[1..] == "";
  }

  lemma PointAfterDigits(ip: string, fp: string)
    requires AllDigits(ip)
    ensures '.' in ip + "." + fp && '.' !in ip
    ensures IndexOf(ip + "." + fp, '.') == |ip|
    ensures (ip + "." + fp)[..|ip|] == ip && (ip + "." + fp)[|ip| + 1..] == fp
  {
    var s := ip + "." + fp;
    assert '.' !in ip by {
      forall i | 0 <= i < |ip| ensures ip[i] != '.' {
        assert IsDigit(ip[i]);
      }
    }
    assert s[|ip|] == '.' && s[..|ip|] == ip;
  }

  /** A string of digits, possibly with a fractional part after a point, converts to the
      decimal number it spells, and a leading minus sign negates it. */
  lemma ParseDecimal(ip: string, fp: string)
    requires AllDigits(ip) && AllDigits(fp) && 0 < |ip| + |fp|
    ensures ParseFloat(ip + "." + fp) == Some(Decimal(ip, fp))
    ensures ParseFloat("-" + ip + "." + fp) == Some(-Decimal(ip, fp))
  {
    var s := ip + "." + fp;
    PointAfterDigits(ip, fp);
    assert ParseUnsigned(s) == Some(Decimal(ip, fp));
    assert 0 < |s| && s[0] != '-' by {
      if 0 < |ip| {
        assert IsDigit(ip[0]);
      }
    }
    assert "-" + ip + "." + fp == "-" + s;
    assert ("-" + s)[1..] == s;
  }

  lemma NoPointInDigits(ip: string)
    requires AllDigits(ip)
    ensures '.' !in ip
  {
    forall i | 0 <= i < |ip| ensures ip[i] != '.' {
      assert IsDigit(ip[i]);
    }
  }

  /** A leading minus sign negates what the rest converts to. */
  lemma ParseNegated(s: string)
    ensures ParseFloat("-" + s) == if ParseUnsigned(s).Some? then Some(-ParseUnsigned(s).value) else None
  {
    assert ("-" + s)[1..] == s;
  }

  lemma UnsignedInteger(ip: string)
    requires AllDigits(ip) && 0 < |ip|
    ensures ParseUnsigned(ip) == Some(DigitsValue(ip) as real)
  {
    NoPointInDigits(ip);
  }

  /** A string of digits without a point converts to the number it spells. */
  lemma ParseInteger(ip: string)
    requires AllDigits(ip) && 0 < |ip|
    ensures ParseFloat(ip) == Some(DigitsValue(ip) as real)
    ensures ParseFloat("-" + ip) == Some(-(DigitsValue(ip) as real))
  {
    UnsignedInteger(ip);
    assert IsDigit(ip[0]);
    ParseNegated(ip);
  }

  /** The price shown from a natural number's digits reads back as that number. */
  function ShowNat(n: nat): (r: string)
    ensures AllDigits(r) && 0 < |r|
  {
    if n < 10 then [('0' as int + n) as char] else ShowNat(n / 10) + [('0' as int + n % 10) as char]
  }

  lemma {:induction false} ShowNatValue(n: nat)
    ensures DigitsValue(ShowNat(n)) == n
  {
    var s := ShowNat(n);
    if n >= 10 {
      ShowNatValue(n / 10);
      assert s[..|s| - 1] == ShowNat(n / 10);
    } else {
      assert s[..0] == [];
    }
  }

  /** Round trip: converting the decimal digits of `n` gives `n` back. */
  lemma ParseShowNat(n: nat)
    ensures ParseFloat(ShowNat(n)) == Some(n as real)
    ensures ParseFloat("-" + ShowNat(n)) == Some(-(n as real))
  {
    ShowNatValue(n);
    ParseInteger(ShowNat(n));
  }

  /** A raw price string through sanitisation, comma replacement and conversion. Only a
      raw price holding a minus sign can come out negative. */
  function ParsePrice(raw: string): (r: Option<real>)
    ensures r.Some? && r.value < 0.0 ==> '-' in raw
  {
    var s := Sanitize(raw);
    assert 0 < |s| && CommaToPoint(s)[0] == '-' ==> s[0] == '-' && s[0] in raw;
    ParseFloat(CommaToPoint(s))
  }

  /** Currency symbols, blanks and letters around a price do not change it: a raw price
      whose allowed characters spell a number with a decimal comma parses to it. */
  lemma PriceWithDecoration(prefix: string, ip: string, fp: string, suffix: string)
    requires forall i :: 0 <= i < |prefix| ==> !Allowed(prefix[i])
    requires forall i :: 0 <= i < |suffix| ==> !Allowed(suffix[i])
    requires AllDigits(ip) && AllDigits(fp) && 0 < |ip| + |fp|
    ensures ParsePrice(prefix + ip + "," + fp + suffix) == Some(Decimal(ip, fp))
  {
    SanitizeDecorated(prefix, ip + "," + fp, suffix);
    assert prefix + ip + "," + fp + suffix == prefix + (ip + "," + fp) + suffix;
    DecimalComma(ip, fp);
    ParseDecimal(ip, fp);
  }

  lemma SanitizeDecorated(prefix: string, body: string, suffix: string)
    requires forall i :: 0 <= i < |prefix| ==> !Allowed(prefix[i])
    requires forall i :: 0 <= i < |suffix| ==> !Allowed(suffix[i])
    requires forall i :: 0 <= i < |body| ==> Allowed(body[i])
    ensures Sanitize(prefix + body + suffix) == body
  {
    var pb := prefix + body;
    FilterKeepsAll(body, Allowed);
    FilterNone(prefix, Allowed);
    FilterNone(suffix, Allowed);
    FilterAppend(prefix, body, Allowed);
    assert Filter(pb, Allowed) == body;
    FilterAppend(pb, suffix, Allowed);
  }

  lemma DecimalComma(ip: string, fp: string)
    requires AllDigits(ip) && AllDigits(fp)
    ensures forall i :: 0 <= i < |ip + "," + fp| ==> Allowed((ip + "," + fp)[i])
    ensures CommaToPoint(ip + "," + fp) == ip + "." + fp
  {
    var body := ip + "," + fp;
    forall i | 0 <= i < |body| ensures Allowed(body[i]) && CommaToPoint(body)[i] == (ip + "." + fp)[i] {
      if i < |ip| {
        assert IsDigit(ip[i]) && body[i] == ip[i];
      } else if i > |ip| {
        assert IsDigit(fp[i - |ip| - 1]) && body[i] == fp[i - |ip| - 1];
      }
    }
  }

  lemma {:induction false} FilterNone<T>(xs: seq<T>, p: T -> bool)
    requires forall i :: 0 <= i < |xs| ==> !p(xs[i])
    ensures Filter(xs, p) == []
  {
    if |xs| > 0 {
      FilterNone(xs[..|xs| - 1], p);
    }
  }

  lemma {:induction false} FilterAppend<T>(a: seq<T>, b: seq<T>, p: T -> bool)
    ensures Filter(a + b, p) == Filter(a, p) + Filter(b, p)
  {
    if |b| == 0 {
      assert a + b == a;
    } else {
      var bi := b[..|b| - 1];
      FilterAppend(a, bi, p);
      assert (a + b)[..|a + b| - 1] == a + bi;
      assert (a + b)[|a + b| - 1] == b[|b| - 1];
    }
  }

  /** A conversion applied to a whole column: the first value it rejects makes it raise a
      ValueError; otherwise every row gets its converted value. */
  function ConvertAll(raws: seq<string>, convert: string -> Option<real>): (r: Result<seq<real>>)
    ensures r.Ok? <==> forall i :: 0 <= i < |raws| ==> convert(raws[i]).Some?
    ensures r.Err? ==> r.error.ValueError?
    ensures r.Ok? ==> |r.value| == |raws| && forall i :: 0 <= i < |raws| ==> Some(r.value[i]) == convert(raws[i])
  {
    if |raws| == 0 then Ok([])
    else
      match convert(raws[0])
      case None => Err(ValueError("could not convert string to float"))
      case Some(x) =>
        match ConvertAll(raws[1..], convert)
        case Err(e) => Err(e)
        case Ok(rest) =>
          assert forall i :: 1 <= i < |raws| ==> raws[i] == raws[1..][i - 1];
          Ok([x] + rest)
  }

  /** `astype(float)` on the whole price column: the first malformed price makes the
      conversion raise a ValueError; otherwise every row gets its parsed price. */
  function PriceColumn(raws: seq<string>): (r: Result<seq<real>>)
    ensures r.Ok? <==> forall i :: 0 <= i < |raws| ==> ParsePrice(raws[i]).Some?
    ensures r.Err? ==> r.error.ValueError?
    ensures r.Ok? ==> |r.value| == |raws| && forall i :: 0 <= i < |raws| ==> Some(r.value[i]) == ParsePrice(raws[i])
  {
    ConvertAll(raws, ParsePrice)
  }

  // ---------------------------------------------------------------------------------------
  // The rows

  /** A row as read: the price and the quantity are still strings. The date is carried as
      read. */
  datatype RawSale = RawSale(article: string, date: string, quantity: string, price: string)

  /** A row after conversion: the quantity is missing when it was not numeric. */
  datatype Sale = Sale(article: string, date: string, quantity: Option<real>, price: real)

  function PriceStrings(raws: seq<RawSale>): (r: seq<string>)
    ensures |r| == |raws| && forall i :: 0 <= i < |raws| ==> r[i] == raws[i].price
  {
    seq(|raws|, i requires 0 <= i < |raws| => raws[i].price)
  }

  /** The rows with their converted columns; `toNumeric` is `pd.to_numeric(…,
      errors='coerce')` on one value, which gives missing instead of raising. */
  function Convert(raws: seq<RawSale>, toNumeric: string -> Option<real>): (r: Result<seq<Sale>>)
    ensures r.Ok? <==> forall i :: 0 <= i < |raws| ==> ParsePrice(raws[i].price).Some?
    ensures r.Err? ==> r.error.ValueError?
    ensures r.Ok? ==> |r.value| == |raws| && forall i :: 0 <= i < |raws| ==>
      r.value[i] == Sale(raws[i].article, raws[i].date, toNumeric(raws[i].quantity), ParsePrice(raws[i].price).value)
  {
    var column := PriceStrings(raws);
    match PriceColumn(column)
    case Err(e) => Err(e)
    case Ok(ps) =>
      Ok(seq(|raws|, i requires 0 <= i < |raws| =>
        Sale(raws[i].article, raws[i].date, toNumeric(raws[i].quantity), ps[i])))
  }

  /** `(data['Quantity'] > 0) & (data['unit_price'] > 0)`; a missing quantity compares
      false. A row passing the filter has a positive measured demand. */
  predicate Positive(s: Sale)
    ensures Positive(s) ==> MeasuredDemand(s).Some? && MeasuredDemand(s).value > 0.0
  {
    s.quantity.Some? && s.quantity.value > 0.0 && s.price > 0.0
  }

  /** `load_and_clean_data` and `clean_sales_data`: convert, then keep the positive rows. */
  function LoadAndCleanData(raws: seq<RawSale>, toNumeric: string -> Option<real>): (r: Result<seq<Sale>>)
    ensures r.Ok? <==> Convert(raws, toNumeric).Ok?
    ensures r.Err? ==> r.error.ValueError?
  {
    match Convert(raws, toNumeric)
    case Err(e) => Err(e)
    case Ok(rows) => Ok(Filter(rows, Positive))
  }

  /** The kept rows are the converted rows with positive quantity and price, in their
      original order: none is positive-violating, none positive is lost, and their number is
      the number of positive rows. */
  lemma CleanKeepsPositiveRows(raws: seq<RawSale>, toNumeric: string -> Option<real>)
    requires Convert(raws, toNumeric).Ok?
    ensures var rows := Convert(raws, toNumeric).value;
      var kept := LoadAndCleanData(raws, toNumeric).value;
      IsSubsequence(kept, rows) &&
      (forall i :: 0 <= i < |kept| ==> kept[i].quantity.Some? && kept[i].quantity.value > 0.0 && kept[i].price > 0.0) &&
      (forall i :: 0 <= i < |rows| && Positive(rows[i]) ==> rows[i] in kept) &&
      |kept| == CountWhere(rows, Positive)
  {
    var rows := Convert(raws, toNumeric).value;
    FilterIsSubsequence(rows, Positive);
    FilterLength(rows, Positive);
  }

  /** A row of `load_and_prepare_data`, with `MeasuredDemand = Quantity * unit_price`
      (missing when the quantity is). */
  datatype PreparedSale = PreparedSale(sale: Sale, measuredDemand: Option<real>)

  function MeasuredDemand(s: Sale): (r: Option<real>)
    ensures r.Some? <==> s.quantity.Some?
    ensures r.Some? ==> r.value == s.quantity.value * s.price
  {
    match s.quantity
    case None => None
    case Some(q) => Some(q * s.price)
  }

  /** `load_and_prepare_data`: convert and add the measured demand to every row, without
      dropping any. */
  function LoadAndPrepareData(raws: seq<RawSale>, toNumeric: string -> Option<real>): (r: Result<seq<PreparedSale>>)
    ensures r.Ok? <==> Convert(raws, toNumeric).Ok?
    ensures r.Err? ==> r.error.ValueError?
    ensures r.Ok? ==> |r.value| == |raws| && forall i :: 0 <= i < |raws| ==>
      r.value[i].sale == Convert(raws, toNumeric).value[i] &&
      r.value[i].measuredDemand == MeasuredDemand(r.value[i].sale)
  {
    match Convert(raws, toNumeric)
    case Err(e) => Err(e)
    case Ok(rows) => Ok(seq(|rows|, i requires 0 <= i < |rows| => PreparedSale(rows[i], MeasuredDemand(rows[i]))))
  }
}
