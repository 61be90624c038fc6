/** The regular expressions and the display filter of the task ledger, as predicates on strings. */
module Text {

  predicate IsDigit(c: char) {
    '0' <= c <= '9'
  }

  predicate IsHex(c: char) {
    IsDigit(c) || 'a' <= c <= 'f'
  }

  predicate IsTokenChar(c: char) {
    IsDigit(c) || 'a' <= c <= 'z' || c == '-'
  }

  /** [a-z0-9]+(?:-[a-z0-9]+)* : lower-case words joined by single hyphens. */
  predicate IsToken(s: string) {
    && |s| > 0 && s[0] != '-' && s[|s| - 1] != '-'
    && (forall c | c in s :: IsTokenChar(c))
    && (forall i | 0 < i < |s| :: s[i - 1] != '-' || s[i] != '-')
  }

  /** A token of at least two words, as every team and agent identity is. */
  predicate IsUid(s: string) {
    IsToken(s) && '-' in s
  }

  predicate IsHexId(prefix: char, s: string) {
    |s| == 14 && s[0] == prefix && s[1] == '-' && forall i | 2 <= i < 14 :: IsHex(s[i])
  }

  predicate IsRunId(s: string) {
    IsHexId('r', s)
  }

  predicate IsTaskId(s: string) {
    IsHexId('t', s)
  }

  /** [0-9]+ */
  predicate IsDecimal(s: string) {
    |s| > 0 && forall c | c in s :: IsDigit(c)
  }

  /** The number a decimal string writes, most significant digit first. */
  function ParseDecimal(s: string): nat
    requires IsDecimal(s)
  {
    assert IsDigit(s[|s| - 1]);
    var last: nat := s[|s| - 1] as int - '0' as int;
    if |s| == 1 then last else ParseDecimal(s[..|s| - 1]) * 10 + last
  }

  function Decimal(n: nat): (s: string)
    ensures IsDecimal(s)
  {
    var last := ['0' + (n % 10) as char];
    if n < 10 then last else Decimal(n / 10) + last
  }

  lemma {:induction false} DecimalRoundTrip(n: nat)
    ensures ParseDecimal(Decimal(n)) == n
  {
    if n >= 10 {
      DecimalRoundTrip(n / 10);
      assert Decimal(n)[..|Decimal(n)| - 1] == Decimal(n / 10);
    }
  }

  /** intent:<token> */
  predicate IsIntentRelay(s: string) {
    "intent:" <= s && IsToken(s[7..])
  }

  /** ctl:<digits> */
  predicate IsControlRelay(s: string) {
    "ctl:" <= s && IsDecimal(s[4..])
  }

  /** The fixed block ranges of the display filter, and the Unicode non-characters. */
  predicate IsBlockedPoint(p: int) {
    || 0x0000 <= p <= 0x001F || 0x007F <= p <= 0x009F || p == 0x00AD
    || p == 0x034F || 0x0600 <= p <= 0x0605 || p == 0x061C || p == 0x06DD
    || p == 0x070F || 0x0890 <= p <= 0x0891 || p == 0x08E2
    || 0x115F <= p <= 0x1160 || 0x17B4 <= p <= 0x17B5 || p == 0x180E
    || 0x200B <= p <= 0x200F || 0x2028 <= p <= 0x202E
    || 0x2060 <= p <= 0x2064 || 0x2066 <= p <= 0x206F || 0xD800 <= p <= 0xDFFF
    || 0xE000 <= p <= 0xF8FF || 0xFE00 <= p <= 0xFE0F || p == 0xFEFF
    || p == 0x3164 || p == 0xFFA0 || 0xFFF9 <= p <= 0xFFFB
    || p == 0x110BD || p == 0x110CD || 0x13430 <= p <= 0x1343F
    || 0x1BCA0 <= p <= 0x1BCAF || 0x1D173 <= p <= 0x1D17A
    || 0xF0000 <= p <= 0xFFFFD || 0x100000 <= p <= 0x10FFFD
    || 0xE0000 <= p <= 0xE007F || 0xE0100 <= p <= 0xE01EF
    || 0xFDD0 <= p <= 0xFDEF || p % 0x10000 == 0xFFFE || p % 0x10000 == 0xFFFF
  }

  predicate IsSafeText(s: string) {
    forall c | c in s :: !IsBlockedPoint(c as int)
  }

  /** No NUL, carriage return or line feed. */
  predicate IsOneLine(s: string) {
    '\0' !in s && '\r' !in s && '\n' !in s
  }

  function DaysInMonth(year: nat, month: nat): nat {
    if month == 2 then
      if year % 4 == 0 && (year % 100 != 0 || year % 400 == 0) then 29 else 28
    else if month == 4 || month == 6 || month == 9 || month == 11 then 30
    else 31
  }

  predicate IsDeadlineShape(s: string) {
    && |s| == 20
    && IsDecimal(s[0..4]) && s[4] == '-' && IsDecimal(s[5..7]) && s[7] == '-' && IsDecimal(s[8..10])
    && s[10] == 'T' && IsDecimal(s[11..13]) && s[13] == ':' && IsDecimal(s[14..16])
    && s[16] == ':' && IsDecimal(s[17..19]) && s[19] == 'Z'
  }

  /** A real UTC second written YYYY-MM-DDTHH:MM:SSZ. */
  predicate IsDeadline(s: string) {
    IsDeadlineShape(s) &&
    var year, month, day := ParseDecimal(s[0..4]), ParseDecimal(s[5..7]), ParseDecimal(s[8..10]);
    && 1 <= year && 1 <= month <= 12 && 1 <= day <= DaysInMonth(year, month)
    && ParseDecimal(s[11..13]) < 24 && ParseDecimal(s[14..16]) < 60 && ParseDecimal(s[17..19]) < 60
  }

  lemma SafeTextIsOneLine(s: string)
    requires IsSafeText(s)
    ensures IsOneLine(s)
  {
    assert IsBlockedPoint('\0' as int) && IsBlockedPoint('\r' as int) && IsBlockedPoint('\n' as int);
  }

  lemma TokenIsOneLine(s: string)
    requires IsToken(s)
    ensures IsOneLine(s)
  {
    assert !IsTokenChar('\0') && !IsTokenChar('\r') && !IsTokenChar('\n');
  }
}
