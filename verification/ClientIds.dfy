// The text form of client order ids, `mm_<symbol>_<timestamp>_<level>_<generation>_<number>`,
// and what is read back out of it.
module ClientIds {
  import opened Orders
  import ManagerModel

  const U64_MAX := 0xFFFF_FFFF_FFFF_FFFF

  // ---------------------------------------------------------------- decimals

  function Digit(d: nat): char
    requires d < 10
  {
    '0' + d as char
  }

  function Digits(n: nat): string {
    if n < 10 then [Digit(n)] else Digits(n / 10) + [Digit(n % 10)]
  }

  function Signed(n: int): string {
    if n < 0 then "-" + Digits(-n) else Digits(n)
  }

  predicate IsDigit(c: char) {
    '0' <= c <= '9'
  }

  /** The value of a run of digits. */
  function Value(s: string): Option<nat> {
    if s == "" || !IsDigit(s[|s| - 1]) then None
    else
      var d := s[|s| - 1] as nat - '0' as nat;
      if |s| == 1 then Some(d)
      else match Value(s[..|s| - 1])
        case None => None
        case Some(v) => Some(v * 10 + d)
  }

  /** The standard library's reading of an unsigned 64-bit number: an optional plus
      sign, then digits, and no overflow. */
  function ParseU64(s: string): Option<nat> {
    var body := if s != "" && s[0] == '+' then s[1..] else s;
    match Value(body)
    case None => None
    case Some(v) => if v <= U64_MAX then Some(v) else None
  }

  predicate Free(s: string) {
    forall i :: 0 <= i < |s| ==> s[i] != '_'
  }

  lemma {:induction false} DigitsAreDigits(n: nat)
    ensures Digits(n) != "" && (forall i :: 0 <= i < |Digits(n)| ==> IsDigit(Digits(n)[i]))
    ensures Free(Digits(n))
  {
    if n >= 10 {
      DigitsAreDigits(n / 10);
    }
  }

  lemma {:induction false} DigitsHaveValue(n: nat)
    ensures Value(Digits(n)) == Some(n)
  {
    if n >= 10 {
      DigitsAreDigits(n / 10);
      DigitsHaveValue(n / 10);
      assert Digits(n)[..|Digits(n)| - 1] == Digits(n / 10);
    }
  }

  /** Printing then parsing gives a 64-bit number back, with or without a plus. */
  lemma DecimalRoundTrip(n: nat)
    ensures ParseU64(Digits(n)) == if n <= U64_MAX then Some(n) else None
    ensures ParseU64("+" + Digits(n)) == ParseU64(Digits(n))
  {
    DigitsAreDigits(n);
    DigitsHaveValue(n);
    assert IsDigit(Digits(n)[0]);
    assert ("+" + Digits(n))[1..] == Digits(n);
  }

  lemma SignedIsFree(n: int)
    ensures Free(Signed(n))
  {
    DigitsAreDigits(if n < 0 then -n else n);
  }

  lemma SignComesFirst(n: int)
    ensures Signed(n) != "" && (Signed(n)[0] == '-' <==> n < 0)
  {
    DigitsAreDigits(if n < 0 then -n else n);
    if n >= 0 {
      assert IsDigit(Digits(n)[0]);
    }
  }

  lemma SignedIsInjective(m: int, n: int)
    requires Signed(m) == Signed(n)
    ensures m == n
  {
    SignComesFirst(m);
    SignComesFirst(n);
    if m < 0 {
      assert Signed(m)[1..] == Digits(-m) && Signed(n)[1..] == Digits(-n);
      DigitsHaveValue(-m);
      DigitsHaveValue(-n);
    } else {
      DigitsHaveValue(m);
      DigitsHaveValue(n);
    }
  }

  // ------------------------------------------------------------ text helpers

  function StripPrefix(s: string, prefix: string): Option<string> {
    if prefix <= s then Some(s[|prefix|..]) else None
  }

  /** The fields between underscores. */
  function Split(s: string): (r: seq<string>)
    ensures |r| >= 1
  {
    if s == "" then [""]
    else
      var rest := Split(s[1..]);
      if s[0] == '_' then [""] + rest else [[s[0]] + rest[0]] + rest[1..]
  }

  function FirstUnderscore(s: string): Option<nat> {
    if s == "" then None
    else if s[0] == '_' then Some(0)
    else match FirstUnderscore(s[1..])
      case None => None
      case Some(i) => Some(i + 1)
  }

  lemma {:induction false} SplitField(field: string, rest: string)
    requires Free(field)
    ensures Split(field + "_" + rest) == [field] + Split(rest)
  {
    var s := field + "_" + rest;
    if field == "" {
      assert s[1..] == rest;
    } else {
      assert s[1..] == field[1..] + "_" + rest && s[0] == field[0];
      SplitField(field[1..], rest);
      assert [field[0]] + field[1..] == field;
    }
  }

  lemma {:induction false} SplitLast(field: string)
    requires Free(field)
    ensures Split(field) == [field]
  {
    if field != "" {
      SplitLast(field[1..]);
      assert [field[0]] + field[1..] == field;
    }
  }

  lemma {:induction false} FindAfterField(field: string, rest: string)
    requires Free(field)
    ensures FirstUnderscore(field + "_" + rest) == Some(|field|)
  {
    var s := field + "_" + rest;
    if field != "" {
      assert s[1..] == field[1..] + "_" + rest && s[0] == field[0];
      FindAfterField(field[1..], rest);
    }
  }

  // -------------------------------------------------------------- client ids

  function SessionPrefix(symbol: string, timestamp: int): string {
    "mm_" + symbol + "_" + Signed(timestamp)
  }

  function Print(session: string, id: ClientId): string {
    session + "_" + Digits(id.level) + "_" + Digits(id.generation) + "_" + Digits(id.number)
  }

  function ExtractSymbol(text: string): Option<string> {
    match StripPrefix(text, "mm_")
    case None => None
    case Some(rest) =>
      match FirstUnderscore(rest)
      case None => None
      case Some(i) => if i <= |rest| then Some(rest[..i]) else None
  }

  predicate IsRetiredText(session: string, retiredGeneration: nat, text: string) {
    match StripPrefix(text, session + "_")
    case None => false
    case Some(suffix) =>
      var fields := Split(suffix);
      |fields| > 1 && match ParseU64(fields[1])
                      case None => false
                      case Some(generation) => generation < retiredGeneration
  }

  function Suffix(id: ClientId): string {
    Digits(id.level) + "_" + Digits(id.generation) + "_" + Digits(id.number)
  }

  lemma SuffixFields(id: ClientId)
    ensures Split(Suffix(id)) == [Digits(id.level), Digits(id.generation), Digits(id.number)]
  {
    DigitsAreDigits(id.level);
    DigitsAreDigits(id.generation);
    DigitsAreDigits(id.number);
    var tail := Digits(id.generation) + "_" + Digits(id.number);
    assert Suffix(id) == Digits(id.level) + "_" + tail;
    SplitField(Digits(id.level), tail);
    SplitField(Digits(id.generation), Digits(id.number));
    SplitLast(Digits(id.number));
  }

  lemma PrintedFields(symbol: string, timestamp: int, id: ClientId)
    requires Free(symbol)
    ensures Split(Print(SessionPrefix(symbol, timestamp), id)) ==
      ["mm", symbol, Signed(timestamp), Digits(id.level), Digits(id.generation), Digits(id.number)]
  {
    hide Split, Digits, Signed;
    var text := Print(SessionPrefix(symbol, timestamp), id);
    var dated := Signed(timestamp) + "_" + Suffix(id);
    assert text == "mm" + "_" + (symbol + "_" + dated);
    SignedIsFree(timestamp);
    SplitField("mm", symbol + "_" + dated);
    SplitField(symbol, dated);
    SplitField(Signed(timestamp), Suffix(id));
    SuffixFields(id);
  }

  /** The symbol printed into an id is the symbol read back. */
  lemma SymbolRoundTrip(symbol: string, timestamp: int, id: ClientId)
    requires Free(symbol)
    ensures ExtractSymbol(Print(SessionPrefix(symbol, timestamp), id)) == Some(symbol)
  {
    hide Digits, Signed, FirstUnderscore;
    var text := Print(SessionPrefix(symbol, timestamp), id);
    var rest := Signed(timestamp) + "_" + Suffix(id);
    assert text == "mm_" + (symbol + "_" + rest);
    assert StripPrefix(text, "mm_") == Some(symbol + "_" + rest);
    FindAfterField(symbol, rest);
    assert (symbol + "_" + rest)[..|symbol|] == symbol;
  }

  /** A manager recognises its own retired ids exactly: the text test agrees with
      comparing generations. */
  lemma RetirementRoundTrip(m: ManagerModel.Manager, symbol: string, timestamp: int, id: ClientId)
    requires id.generation <= U64_MAX
    ensures IsRetiredText(SessionPrefix(symbol, timestamp), m.retired, Print(SessionPrefix(symbol, timestamp), id))
      <==> ManagerModel.Retired(m, id)
  {
    hide Split, Digits, Signed, ParseU64;
    var session := SessionPrefix(symbol, timestamp);
    assert Print(session, id) == session + "_" + Suffix(id);
    assert Print(session, id)[|session + "_"|..] == Suffix(id);
    SuffixFields(id);
    DecimalRoundTrip(id.generation);
  }

  /** Equal texts come from equal symbols, sessions, levels, generations and numbers. */
  lemma PrintIsInjective(symbol: string, timestamp: int, id: ClientId, symbol': string, timestamp': int, id': ClientId)
    requires Free(symbol) && Free(symbol')
    requires Print(SessionPrefix(symbol, timestamp), id) == Print(SessionPrefix(symbol', timestamp'), id')
    ensures symbol == symbol' && timestamp == timestamp' && id == id'
  {
    hide Split, Digits, Signed, Print;
    PrintedFields(symbol, timestamp, id);
    PrintedFields(symbol', timestamp', id');
    var f := Split(Print(SessionPrefix(symbol, timestamp), id));
    assert f[1] == symbol == symbol' && f[2] == Signed(timestamp) == Signed(timestamp');
    assert f[3] == Digits(id.level) == Digits(id'.level);
    assert f[4] == Digits(id.generation) == Digits(id'.generation) && f[5] == Digits(id.number) == Digits(id'.number);
    SignedIsInjective(timestamp, timestamp');
    DigitsHaveValue(id.level);
    DigitsHaveValue(id'.level);
    DigitsHaveValue(id.generation);
    DigitsHaveValue(id'.generation);
    DigitsHaveValue(id.number);
    DigitsHaveValue(id'.number);
  }

  /** An id of another session is never taken for a retired one. */
  lemma OtherSessionsAreNotRetired(symbol: string, timestamp: int, retired: nat, symbol': string, timestamp': int,
                                   id: ClientId)
    requires Free(symbol) && Free(symbol') && (symbol != symbol' || timestamp != timestamp')
    ensures !IsRetiredText(SessionPrefix(symbol, timestamp), retired, Print(SessionPrefix(symbol', timestamp'), id))
  {
    hide Split, Digits, Signed, ParseU64;
    var session, text := SessionPrefix(symbol, timestamp), Print(SessionPrefix(symbol', timestamp'), id);
    if session + "_" <= text {
      var rest := text[|session + "_"|..];
      assert text == session + "_" + rest;
      var dated := Signed(timestamp) + "_" + rest;
      assert text == "mm" + "_" + (symbol + "_" + dated);
      SignedIsFree(timestamp);
      SplitField("mm", symbol + "_" + dated);
      SplitField(symbol, dated);
      SplitField(Signed(timestamp), rest);
      PrintedFields(symbol', timestamp', id);
      var f := Split(text);
      assert f[1] == symbol && f[2] == Signed(timestamp);
      if timestamp != timestamp' && Signed(timestamp) == Signed(timestamp') {
        SignedIsInjective(timestamp, timestamp');
      }
    }
  }
}
