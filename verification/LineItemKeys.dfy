/**
 The keys of line items. A line item's stamp, UID, code and values are all written into its key, and a
 balance is computed from the keys alone, so decoding must give back exactly what was encoded.
 */
module LineItemKeys {
  import opened Balances
  import opened Calendar
  import opened Digits
  import opened Wrappers

  datatype Item = Item(stamp: Time, uid: string, info: TransactionInfo)

  // ------------------------------------------------------------ dates and times

  function IsoDate(d: Date): string {
    Print(d.year, 4) + "-" + Print(d.month, 2) + "-" + Print(d.day, 2)
  }

  predicate LooksLikeDate(s: string) {
    |s| == 10 && AllDigits(s[..4]) && s[4] == '-' && AllDigits(s[5..7]) && s[7] == '-' && AllDigits(s[8..10])
  }

  function ParseIsoDate(s: string): Option<Date> {
    if LooksLikeDate(s) then
      var d := Date(Parse(s[..4]), Parse(s[5..7]), Parse(s[8..10]));
      if ValidDate(d) then Some(d) else None
    else None
  }

  lemma ParsePrintedDate(d: Date)
    requires ValidDate(d) && d.year <= 9999
    ensures |IsoDate(d)| == 10 && ParseIsoDate(IsoDate(d)) == Some(d)
  {
    var s := IsoDate(d);
    assert Pow10(2) == 100 && Pow10(4) == 10000;
    assert s[..4] == Print(d.year, 4) && s[5..7] == Print(d.month, 2) && s[8..10] == Print(d.day, 2);
    ParsePrint(d.year, 4);
    ParsePrint(d.month, 2);
    ParsePrint(d.day, 2);
  }

  // A time that a key can hold: from 1 January of year 1 to the end of year 9999.
  predicate Stampable(t: Time) {
    1 <= OrdinalOf(t) && Civil(OrdinalOf(t)).year <= 9999
  }

  function Clock(t: Time): string
    requires 0 <= t
  {
    Print(HourOf(t) % 24, 2) + ":" + Print(t / MINUTE % 60, 2) + ":" + Print(t / SECOND % 60, 2)
  }

  function Fraction(micros: nat): string {
    if micros == 0 then "" else "." + Print(micros, 6)
  }

  /** `isoformat()`: the microseconds are left out when they are zero. */
  function IsoTime(t: Time): string
    requires Stampable(t)
  {
    IsoDate(Civil(OrdinalOf(t))) + "T" + Clock(t) + Fraction(t % SECOND)
  }

  predicate LooksLikeClock(s: string) {
    |s| == 8 && AllDigits(s[..2]) && s[2] == ':' && AllDigits(s[3..5]) && s[5] == ':' && AllDigits(s[6..8])
  }

  // Microseconds since midnight.
  function ParseClock(s: string): Option<Time> {
    if LooksLikeClock(s) then
      var h, m, sec := Parse(s[..2]), Parse(s[3..5]), Parse(s[6..8]);
      if h < 24 && m < 60 && sec < 60 then Some(h * HOUR + m * MINUTE + sec * SECOND) else None
    else None
  }

  function ParseFraction(s: string): Option<Time> {
    if s == "" then Some(0)
    else if |s| == 7 && s[0] == '.' && AllDigits(s[1..]) then Some(Parse(s[1..]))
    else None
  }

  /** `string_to_datetime`, for the strings that `datetime_to_string` writes. */
  function ParseIsoTime(s: string): Option<Time> {
    if |s| < 19 || s[10] != 'T' then None
    else
      match (ParseIsoDate(s[..10]), ParseClock(s[11..19]), ParseFraction(s[19..]))
      case (Some(d), Some(clock), Some(fraction)) => Some(Ordinal(d) * DAY + clock + fraction)
      case _ => None
  }

  lemma ClockArithmetic(t: Time)
    requires 0 <= t
    ensures (HourOf(t) % 24) * HOUR + (t / MINUTE % 60) * MINUTE + (t / SECOND % 60) * SECOND == t % DAY - t % SECOND
  {
    var micros, seconds := t % SECOND, t / SECOND;
    var s, minutes := seconds % 60, seconds / 60;
    var m, hours := minutes % 60, minutes / 60;
    var h, days := hours % 24, hours / 24;
    Quotient(t, MINUTE, minutes, s * SECOND + micros);
    Quotient(t, HOUR, hours, m * MINUTE + s * SECOND + micros);
    Quotient(t, DAY, days, h * HOUR + m * MINUTE + s * SECOND + micros);
  }

  lemma WithinDay(t: Time)
    ensures OrdinalOf(t) * DAY + t % DAY == t
  {
  }

  lemma ClockSlices(h: string, m: string, sec: string)
    requires |h| == |m| == |sec| == 2
    ensures var s := h + ":" + m + ":" + sec;
      |s| == 8 && s[..2] == h && s[2] == ':' && s[3..5] == m && s[5] == ':' && s[6..8] == sec
  {
  }

  lemma ParseHands(h: string, m: string, sec: string)
    requires |h| == |m| == |sec| == 2 && AllDigits(h) && AllDigits(m) && AllDigits(sec)
    requires Parse(h) < 24 && Parse(m) < 60 && Parse(sec) < 60
    ensures ParseClock(h + ":" + m + ":" + sec) == Some(Parse(h) * HOUR + Parse(m) * MINUTE + Parse(sec) * SECOND)
  {
    ClockSlices(h, m, sec);
  }

  lemma PrintedHand(n: nat)
    requires n < 60
    ensures Parse(Print(n, 2)) == n
  {
    assert Pow10(2) == 100;
    ParsePrint(n, 2);
  }

  lemma ParsePrintedClock(t: Time)
    requires 0 <= t
    ensures |Clock(t)| == 8 && ParseClock(Clock(t)) == Some(t % DAY - t % SECOND)
  {
    var h, m, sec := HourOf(t) % 24, t / MINUTE % 60, t / SECOND % 60;
    PrintedHand(h);
    PrintedHand(m);
    PrintedHand(sec);
    ParseHands(Print(h, 2), Print(m, 2), Print(sec, 2));
    ClockArithmetic(t);
  }

  lemma ParsePrintedFraction(micros: nat)
    requires micros < SECOND
    ensures ParseFraction(Fraction(micros)) == Some(micros)
  {
    assert Pow10(3) == 1000 && Pow10(6) == 1000000;
    ParsePrint(micros, 6);
    assert ("." + Print(micros, 6))[1..] == Print(micros, 6);
  }

  lemma TimeSlices(date: string, clock: string, fraction: string)
    requires |date| == 10 && |clock| == 8
    ensures var s := date + "T" + clock + fraction;
      |s| >= 19 && s[..10] == date && s[10] == 'T' && s[11..19] == clock && s[19..] == fraction
  {
  }

  lemma ParseParts(date: string, clock: string, fraction: string, n: int, c: Time, f: Time, t: Time)
    requires |date| == 10 && |clock| == 8 && 1 <= n && n * DAY + c + f == t
    requires ParseIsoDate(date) == Some(Civil(n)) && Ordinal(Civil(n)) == n
    requires ParseClock(clock) == Some(c) && ParseFraction(fraction) == Some(f)
    ensures ParseIsoTime(date + "T" + clock + fraction) == Some(t)
  {
    TimeSlices(date, clock, fraction);
  }

  /** Reading a printed time gives the time back, with or without microseconds. */
  lemma ParsePrintedTime(t: Time)
    requires Stampable(t)
    ensures ParseIsoTime(IsoTime(t)) == Some(t)
  {
    var n, c, f := OrdinalOf(t), t % DAY - t % SECOND, t % SECOND;
    var date, clock, fraction := IsoDate(Civil(n)), Clock(t), Fraction(f);
    assert n * DAY + c + f == t by { WithinDay(t); }
    assert |date| == 10 && ParseIsoDate(date) == Some(Civil(n)) by { ParsePrintedDate(Civil(n)); }
    assert |clock| == 8 && ParseClock(clock) == Some(c) by { ParsePrintedClock(t); }
    assert ParseFraction(fraction) == Some(f) by { ParsePrintedFraction(f); }
    assert Ordinal(Civil(n)) == n by { OrdinalOfCivil(n); }
    ParseParts(date, clock, fraction, n, c, f, t);
  }

  // ------------------------------------------------------------ codes and values

  function CodeText(code: TransactionCode): string {
    match code
    case Credit => "CR"
    case Debit => "DR"
    case CurrentLiability => "CL"
    case AccountReceivable => "AR"
    case ReceivedReceipt => "RR"
    case SentReceipt => "SR"
    case ReceivedRefund => "RF"
    case SentRefund => "SF"
  }

  function ParseCode(s: string): Option<TransactionCode> {
    if s == "CR" then Some(Credit)
    else if s == "DR" then Some(Debit)
    else if s == "CL" then Some(CurrentLiability)
    else if s == "AR" then Some(AccountReceivable)
    else if s == "RR" then Some(ReceivedReceipt)
    else if s == "SR" then Some(SentReceipt)
    else if s == "RF" then Some(ReceivedRefund)
    else if s == "SF" then Some(SentRefund)
    else None
  }

  /** `%013.6f` of a value given in micro-units. */
  function Money(v: int): string
    requires 0 <= v <= MAX_TRANSACTION
  {
    Print(v / UNIT, 6) + "." + Print(v % UNIT, 6)
  }

  function ParseMoney(s: string): Option<int> {
    var n := |s| - 7;
    if n >= 1 && AllDigits(s[..n]) && s[n] == '.' && AllDigits(s[n + 1..]) then
      Some(Parse(s[..n]) * UNIT + Parse(s[n + 1..]))
    else None
  }

  lemma MoneySlices(whole: string, fraction: string)
    requires |whole| == |fraction| == 6
    ensures var s := whole + "." + fraction;
      |s| == 13 && s[..6] == whole && s[6] == '.' && s[7..] == fraction
  {
  }

  lemma MoneyIsPlain(whole: string, fraction: string)
    requires AllDigits(whole) && AllDigits(fraction)
    ensures 'T' !in whole + "." + fraction && '/' !in whole + "." + fraction
  {
  }

  lemma ParsePrintedMoney(v: int)
    requires 0 <= v <= MAX_TRANSACTION
    ensures |Money(v)| == 13 && ParseMoney(Money(v)) == Some(v)
    ensures 'T' !in Money(v) && '/' !in Money(v)
  {
    assert Pow10(3) == 1000 && Pow10(6) == 1000000;
    ParsePrint(v / UNIT, 6);
    ParsePrint(v % UNIT, 6);
    MoneySlices(Print(v / UNIT, 6), Print(v % UNIT, 6));
    MoneyIsPlain(Print(v / UNIT, 6), Print(v % UNIT, 6));
  }

  /** `TransactionInfo.encode`. */
  function Encode(t: TransactionInfo): string
    requires t.WellFormed()
  {
    CodeText(t.code) + match t.receipted
    case None => Money(t.value)
    case Some(r) => Money(t.value) + "T" + Money(r)
  }

  lemma CodesInFull()
    ensures [CodeText(Credit), CodeText(Debit), CodeText(CurrentLiability), CodeText(AccountReceivable),
             CodeText(ReceivedReceipt), CodeText(SentReceipt), CodeText(ReceivedRefund), CodeText(SentRefund)] ==
      ["CR", "DR", "CL", "AR", "RR", "SR", "RF", "SF"]
  {
  }

  /** A value is written as six digits of units, a point and six digits of micro-units. */
  lemma MoneyInFields(v: int, units: nat, micros: nat)
    requires 0 <= v <= MAX_TRANSACTION && micros < 1_000_000 && v == units * 1_000_000 + micros
    ensures Money(v) == Print(units, 6) + "." + Print(micros, 6)
  {
    Quotient(v, UNIT, units, micros);
  }

  /** After the code stands the value, and for a receipt the receipted value after a 'T'. */
  lemma EncodeInFields(t: TransactionInfo)
    requires t.WellFormed()
    ensures t.receipted.None? ==> Encode(t) == CodeText(t.code) + Money(t.value)
    ensures t.receipted.Some? ==> Encode(t) == CodeText(t.code) + (Money(t.value) + "T" + Money(t.receipted.value))
  {
  }

  // ------------------------------------------------------------ splitting

  /** `s.split(c)`. */
  function Split(s: string, c: char): (parts: seq<string>)
    ensures |parts| >= 1
  {
    if |s| == 0 then [""]
    else
      var parts, last := Split(s[..|s| - 1], c), s[|s| - 1];
      if last == c then parts + [""] else parts[..|parts| - 1] + [parts[|parts| - 1] + [last]]
  }

  lemma {:induction false} SplitLastPart(a: string, b: string, c: char)
    requires c !in b
    ensures Split(a + [c] + b, c) == Split(a, c) + [b]
    decreases |b|
  {
    var s := a + [c] + b;
    if |b| == 0 {
      assert s[..|s| - 1] == a;
    } else {
      var b', last := b[..|b| - 1], b[|b| - 1];
      assert s[..|s| - 1] == a + [c] + b' && s[|s| - 1] == last;
      SplitLastPart(a, b', c);
      var parts := Split(a, c) + [b'];
      assert parts[..|parts| - 1] == Split(a, c);
      assert b' + [last] == b;
    }
  }

  lemma {:induction false} SplitWhole(s: string, c: char)
    requires c !in s
    ensures Split(s, c) == [s]
    decreases |s|
  {
    if |s| > 0 {
      SplitWhole(s[..|s| - 1], c);
      assert s[..|s| - 1] + [s[|s| - 1]] == s;
    }
  }

  // ------------------------------------------------------------ from keys

  // Code and values, from the last part of a key. A receipt code whose two values cannot be read falls back
  // on a single value and no receipted value.
  function ParseInfo(part: string): Option<TransactionInfo> {
    var (text, rest) := if |part| < 2 then (part, "") else (part[..2], part[2..]);
    match ParseCode(text)
    case None => None
    case Some(code) =>
      var single := match ParseMoney(rest)
        case Some(v) => Some(TransactionInfo(code, v, None))
        case None => None;
      var values := Split(rest, 'T');
      if !IsReceiptCode(code) || |values| < 2 then single
      else
        match (ParseMoney(values[0]), ParseMoney(values[1]))
        case (Some(v), Some(r)) => Some(TransactionInfo(code, v, Some(r)))
        case _ => single
  }

  // Python's list indexing: negative positions count from the end.
  function PyAt(parts: seq<string>, k: int): Option<string> {
    if 0 <= k < |parts| then Some(parts[k])
    else if -|parts| <= k < 0 then Some(parts[|parts| + k])
    else None
  }

  // The item whose code stands in part `j`, if there is one.
  function ItemAt(parts: seq<string>, j: int): Option<Item>
    requires 0 <= j < |parts|
  {
    match PyAt(parts, j - 2)
    case None => None
    case Some(datetime) =>
      match (ParseIsoTime(datetime), PyAt(parts, j - 1), ParseInfo(parts[j]))
      case (Some(stamp), Some(uid), Some(info)) => Some(Item(stamp, uid, info))
      case _ => None
  }

  function LastItem(parts: seq<string>, n: nat): Option<Item>
    requires n <= |parts|
  {
    if n == 0 then None
    else if ItemAt(parts, n - 1).Some? then ItemAt(parts, n - 1)
    else LastItem(parts, n - 1)
  }

  /** What `from_key` reads off a key: the last place where a time, a UID and a code follow one another. */
  function Decode(key: string): Option<Item> {
    var parts := Split(key, '/');
    LastItem(parts, |parts|)
  }

  /** `TransactionInfo.from_key`. */
  method FromKey(key: string) returns (item: Option<Item>)
    ensures item == Decode(key)
  {
    var parts := Split(key, '/');
    var n := |parts|;
    for i := 0 to n
      invariant LastItem(parts, n) == LastItem(parts, n - i)
    {
      var found := ItemAt(parts, n - i - 1);
      if found.Some? {
        return found;
      }
    }
    return None;
  }

  /** `TransactionInfo.to_key`. */
  function ToKey(item: Item): string
    requires Stampable(item.stamp) && item.info.WellFormed()
  {
    IsoTime(item.stamp) + "/" + item.uid + "/" + Encode(item.info)
  }

  predicate Encodable(item: Item) {
    Stampable(item.stamp) && item.info.WellFormed() && '/' !in item.uid
  }

  // ------------------------------------------------------------ the round trip

  lemma InfoSlices(code: TransactionCode, rest: string)
    ensures var s := CodeText(code) + rest;
      |s| >= 2 && s[..2] == CodeText(code) && s[2..] == rest && ParseCode(s[..2]) == Some(code)
    ensures '/' !in rest ==> '/' !in CodeText(code) + rest
  {
  }

  lemma ParseSingle(code: TransactionCode, rest: string, v: int)
    requires !IsReceiptCode(code) && ParseMoney(rest) == Some(v)
    ensures ParseInfo(CodeText(code) + rest) == Some(TransactionInfo(code, v, None))
  {
    InfoSlices(code, rest);
  }

  lemma ParseReceipt(code: TransactionCode, first: string, second: string, v: int, r: int)
    requires IsReceiptCode(code) && 'T' !in first && 'T' !in second
    requires ParseMoney(first) == Some(v) && ParseMoney(second) == Some(r)
    ensures ParseInfo(CodeText(code) + (first + "T" + second)) == Some(TransactionInfo(code, v, Some(r)))
  {
    InfoSlices(code, first + "T" + second);
    SplitLastPart(first, second, 'T');
    SplitWhole(first, 'T');
  }

  lemma ParseEncoded(t: TransactionInfo)
    requires t.WellFormed()
    ensures ParseInfo(Encode(t)) == Some(t)
    ensures '/' !in Encode(t)
  {
    ParsePrintedMoney(t.value);
    match t.receipted
    case None =>
      ParseSingle(t.code, Money(t.value), t.value);
      InfoSlices(t.code, Money(t.value));
    case Some(r) =>
      ParsePrintedMoney(r);
      ParseReceipt(t.code, Money(t.value), Money(r), t.value, r);
      InfoSlices(t.code, Money(t.value) + "T" + Money(r));
  }

  lemma NoSlashInDigits(s: string)
    requires AllDigits(s)
    ensures '/' !in s
  {
  }

  lemma NoSlashInTime(t: Time)
    requires Stampable(t)
    ensures '/' !in IsoTime(t)
  {
    var d := Civil(OrdinalOf(t));
    NoSlashInDigits(Print(d.year, 4));
    NoSlashInDigits(Print(d.month, 2));
    NoSlashInDigits(Print(d.day, 2));
    assert '/' !in IsoDate(d);
    NoSlashInDigits(Print(HourOf(t) % 24, 2));
    NoSlashInDigits(Print(t / MINUTE % 60, 2));
    NoSlashInDigits(Print(t / SECOND % 60, 2));
    assert '/' !in Clock(t);
    NoSlashInDigits(Print(t % SECOND, 6));
  }

  lemma DecodeParts(parts: seq<string>, time: string, code: string, item: Item)
    requires ParseIsoTime(time) == Some(item.stamp) && ParseInfo(code) == Some(item.info)
    ensures var all := parts + [time, item.uid, code];
      LastItem(all, |all|) == Some(item)
  {
    var all := parts + [time, item.uid, code];
    var j := |all| - 1;
    assert all[j - 2] == time && all[j - 1] == item.uid && all[j] == code;
    assert ItemAt(all, j) == Some(item);
  }

  lemma SplitThree(prefix: string, a: string, b: string, d: string, c: char)
    requires c !in a && c !in b && c !in d
    ensures Split(prefix + [c] + (a + [c] + b + [c] + d), c) == Split(prefix, c) + [a, b, d]
  {
    var one := prefix + [c] + a;
    var two := one + [c] + b;
    SplitLastPart(prefix, a, c);
    SplitLastPart(one, b, c);
    SplitLastPart(two, d, c);
    assert prefix + [c] + (a + [c] + b + [c] + d) == two + [c] + d;
    assert Split(prefix, c) + [a] + [b] + [d] == Split(prefix, c) + [a, b, d];
  }

  /** Whatever path a line item's key is stored under, decoding the key gives the line item back. */
  lemma RoundTrip(prefix: string, item: Item)
    requires Encodable(item)
    ensures Decode(prefix + "/" + ToKey(item)) == Some(item)
  {
    NoSlashInTime(item.stamp);
    ParseEncoded(item.info);
    SplitThree(prefix, IsoTime(item.stamp), item.uid, Encode(item.info), '/');
    ParsePrintedTime(item.stamp);
    DecodeParts(Split(prefix, '/'), IsoTime(item.stamp), Encode(item.info), item);
  }

  /** So two line items never share a key. */
  lemma KeysAreInjective(prefix: string, a: Item, b: Item)
    requires Encodable(a) && Encodable(b)
    requires prefix + "/" + ToKey(a) == prefix + "/" + ToKey(b)
    ensures a == b
  {
    RoundTrip(prefix, a);
    RoundTrip(prefix, b);
  }

  // ------------------------------------------------------------ keys written otherwise

  /** A receipt code with one value only is read as that value, with no receipted value. */
  lemma SingleValueReceipt(code: TransactionCode, v: int)
    requires IsReceiptCode(code) && 0 <= v <= MAX_TRANSACTION
    ensures ParseInfo(CodeText(code) + Money(v)) == Some(TransactionInfo(code, v, None))
  {
    InfoSlices(code, Money(v));
    ParsePrintedMoney(v);
    SplitWhole(Money(v), 'T');
  }

  lemma CodeIsNoTime(t: TransactionInfo)
    requires t.WellFormed()
    ensures ParseIsoTime(Encode(t)).None?
  {
    var s := Encode(t);
    InfoSlices(t.code, s[2..]);
    if |s| >= 19 {
      assert s[0] == CodeText(t.code)[0] && !IsDigit(s[0]);
      assert s[..10][..4][0] == s[0];
    }
  }

  lemma SplitTwo(a: string, b: string, d: string, c: char)
    requires c !in a && c !in b && c !in d
    ensures Split(a + [c] + b + [c] + d, c) == [a, b, d]
  {
    SplitLastPart(a + [c] + b, d, c);
    SplitLastPart(a, b, c);
    SplitWhole(a, c);
  }

  // A code before a time and a UID, neither the code nor the UID being a time.
  lemma RotatedParts(parts: seq<string>, item: Item)
    requires |parts| == 3 && parts[2] == item.uid
    requires ParseIsoTime(parts[0]).None? && ParseIsoTime(parts[2]).None?
    requires ParseIsoTime(parts[1]) == Some(item.stamp) && ParseInfo(parts[0]) == Some(item.info)
    ensures LastItem(parts, |parts|) == Some(item)
  {
    var n := |parts|;
    assert ItemAt(parts, n - 1).None?;
    assert ItemAt(parts, n - 2).None?;
    assert ItemAt(parts, n - 3) == Some(item);
    assert LastItem(parts, n) == LastItem(parts, n - 1) == LastItem(parts, n - 2);
  }

  /** Positions before the first part count from the last: a key with the code in front is read as well. */
  lemma CodeInFrontIsRead(item: Item)
    requires Encodable(item) && ParseIsoTime(item.uid).None?
    ensures Decode(Encode(item.info) + "/" + IsoTime(item.stamp) + "/" + item.uid) == Some(item)
  {
    var code, time := Encode(item.info), IsoTime(item.stamp);
    assert '/' !in time by { NoSlashInTime(item.stamp); }
    assert ParseInfo(code) == Some(item.info) && '/' !in code by { ParseEncoded(item.info); }
    assert ParseIsoTime(time) == Some(item.stamp) by { ParsePrintedTime(item.stamp); }
    assert ParseIsoTime(code).None? by { CodeIsNoTime(item.info); }
    InFront(code, time, item);
  }

  lemma InFront(code: string, time: string, item: Item)
    requires '/' !in code && '/' !in time && '/' !in item.uid
    requires ParseIsoTime(code).None? && ParseIsoTime(item.uid).None?
    requires ParseIsoTime(time) == Some(item.stamp) && ParseInfo(code) == Some(item.info)
    ensures Decode(code + "/" + time + "/" + item.uid) == Some(item)
  {
    SplitTwo(code, time, item.uid, '/');
    RotatedParts(Split(code + "/" + time + "/" + item.uid, '/'), item);
  }

  // ------------------------------------------------------------ times in full

  lemma FieldsOfTime(t: Time, n: int, h: nat, m: nat, s: nat, micros: nat)
    requires 1 <= n && h < 24 && m < 60 && s < 60 && micros < 1_000_000
    requires t == n * 86_400_000_000 + h * 3_600_000_000 + m * 60_000_000 + s * 1_000_000 + micros
    ensures OrdinalOf(t) == n && HourOf(t) % 24 == h
    ensures t / MINUTE % 60 == m && t / SECOND % 60 == s && t % SECOND == micros
  {
    var hours, minutes := n * 24 + h, (n * 24 + h) * 60 + m;
    Quotient(t, DAY, n, h * HOUR + m * MINUTE + s * SECOND + micros);
    Quotient(t, HOUR, hours, m * MINUTE + s * SECOND + micros);
    Quotient(t, MINUTE, minutes, s * SECOND + micros);
    Quotient(t, SECOND, minutes * 60 + s, micros);
    Quotient(hours, 24, n, h);
    Quotient(minutes, 60, hours, m);
    Quotient(minutes * 60 + s, 60, minutes, s);
  }

  /** A time of any date of the calendar is written field by field. */
  lemma IsoTimeInFields(t: Time, d: Date, h: nat, m: nat, s: nat, micros: nat)
    requires ValidDate(d) && d.year <= 9999 && h < 24 && m < 60 && s < 60 && micros < 1_000_000
    requires t == DayCount(d.year, d.month, d.day) * 86_400_000_000
      + h * 3_600_000_000 + m * 60_000_000 + s * 1_000_000 + micros
    ensures Stampable(t)
    ensures IsoTime(t) ==
      Print(d.year, 4) + "-" + Print(d.month, 2) + "-" + Print(d.day, 2) + "T" +
      (Print(h, 2) + ":" + Print(m, 2) + ":" + Print(s, 2)) +
      (if micros == 0 then "" else "." + Print(micros, 6))
  {
    var n := DayCount(d.year, d.month, d.day);
    CivilIsDayCount(n, d);
    FieldsOfTime(t, n, h, m, s, micros);
  }
}
