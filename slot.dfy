/**
 * The textual time slot "HH:MM - HH:MM": its shape, how the service reads
 * the four numbers out of it, and the one-hour and working-hours rules it
 * checks before looking for conflicts.
 */
module SlotRules {

  predicate IsDigit(c: char) {
    '0' <= c <= '9'
  }

  function DigitValue(c: char): (v: nat)
    requires IsDigit(c)
    ensures v < 10
  {
    c as int - '0' as int
  }

  function DigitChar(v: nat): (c: char)
    requires v < 10
    ensures IsDigit(c) && DigitValue(c) == v
  {
    (v + '0' as int) as char
  }

  /** The value `Number` gives a two-digit text such as "09". */
  function TwoDigitValue(hi: char, lo: char): (v: nat)
    requires IsDigit(hi) && IsDigit(lo)
    ensures v < 100
  {
    10 * DigitValue(hi) + DigitValue(lo)
  }

  /**
   * The shape every slot reaching the service has: two clocks of two digits,
   * a colon and two digits each, joined by " - ". The request validators
   * admit only such text (with hours 00-23 and minutes 00-59); this shape
   * admits any digits, so that out-of-range minutes such as "11:60" are
   * covered as well.
   */
  predicate SlotShape(s: string) {
    |s| == 13 &&
    IsDigit(s[0]) && IsDigit(s[1]) && s[2] == ':' && IsDigit(s[3]) && IsDigit(s[4]) &&
    s[5] == ' ' && s[6] == '-' && s[7] == ' ' &&
    IsDigit(s[8]) && IsDigit(s[9]) && s[10] == ':' && IsDigit(s[11]) && IsDigit(s[12])
  }

  datatype Clock = Clock(hour: nat, minute: nat)

  datatype Slot = Slot(start: Clock, end: Clock)

  /** The four numbers of a slot, as splitting on " - " and ":" and applying `Number` yields them. */
  function ParseSlot(s: string): (slot: Slot)
    requires SlotShape(s)
    ensures slot.start.hour < 100 && slot.start.minute < 100
    ensures slot.end.hour < 100 && slot.end.minute < 100
  {
    Slot(Clock(TwoDigitValue(s[0], s[1]), TwoDigitValue(s[3], s[4])),
         Clock(TwoDigitValue(s[8], s[9]), TwoDigitValue(s[11], s[12])))
  }

  /** The text before " - ": the start clock exactly as the client wrote it. */
  function StartText(s: string): (t: string)
    requires SlotShape(s)
    ensures |t| == 5 && t <= s
  {
    s[..5]
  }

  predicate ClockInRange(c: Clock) {
    c.hour < 100 && c.minute < 100
  }

  function FormatClock(c: Clock): (t: string)
    requires ClockInRange(c)
    ensures |t| == 5
  {
    [DigitChar(c.hour / 10), DigitChar(c.hour % 10), ':', DigitChar(c.minute / 10), DigitChar(c.minute % 10)]
  }

  /** Writes a slot back as text; the inverse of ParseSlot. */
  function FormatSlot(slot: Slot): (s: string)
    requires ClockInRange(slot.start) && ClockInRange(slot.end)
    ensures |s| == 13
  {
    FormatClock(slot.start) + " - " + FormatClock(slot.end)
  }

  /** The duration rule: the end hour is one past the start hour and both minutes are zero. */
  predicate IsOneHour(slot: Slot) {
    slot.end.hour - slot.start.hour == 1 && slot.start.minute == 0 && slot.end.minute == 0
  }

  /** The working-hours rule: the start hour lies in 9..15. */
  predicate InWorkingHours(slot: Slot) {
    9 <= slot.start.hour <= 15
  }

  /** A slot the service accepts for booking. */
  predicate IsBookable(s: string) {
    SlotShape(s) && IsOneHour(ParseSlot(s)) && InWorkingHours(ParseSlot(s))
  }

  lemma TwoDigitRoundTrip(v: nat)
    requires v < 100
    ensures TwoDigitValue(DigitChar(v / 10), DigitChar(v % 10)) == v
  {
  }

  lemma TwoDigitInjective(a: char, b: char, c: char, d: char)
    requires IsDigit(a) && IsDigit(b) && IsDigit(c) && IsDigit(d)
    requires TwoDigitValue(a, b) == TwoDigitValue(c, d)
    ensures a == c && b == d
  {
    assert DigitValue(a) == DigitValue(c);
  }

  /** Formatting a slot and parsing it back gives the same four numbers. */
  lemma ParseFormat(slot: Slot)
    requires ClockInRange(slot.start) && ClockInRange(slot.end)
    ensures SlotShape(FormatSlot(slot)) && ParseSlot(FormatSlot(slot)) == slot
  {
    var s := FormatSlot(slot);
    TwoDigitRoundTrip(slot.start.hour);
    TwoDigitRoundTrip(slot.start.minute);
    TwoDigitRoundTrip(slot.end.hour);
    TwoDigitRoundTrip(slot.end.minute);
  }

  /** Parsing a slot and formatting it again gives the same text. */
  lemma FormatParse(s: string)
    requires SlotShape(s)
    ensures FormatSlot(ParseSlot(s)) == s
  {
    var slot := ParseSlot(s);
    var t := FormatSlot(slot);
    ParseFormat(slot);
    TwoDigitInjective(s[0], s[1], t[0], t[1]);
    TwoDigitInjective(s[3], s[4], t[3], t[4]);
    TwoDigitInjective(s[8], s[9], t[8], t[9]);
    TwoDigitInjective(s[11], s[12], t[11], t[12]);
  }

  /**
   * Between two well-shaped slots, the source's text test "b starts with
   * the start text of a" holds exactly when the two slots start at the same
   * clock, and is therefore symmetric.
   */
  lemma StartPrefixIsSameStart(a: string, b: string)
    requires SlotShape(a) && SlotShape(b)
    ensures StartText(a) <= b <==> ParseSlot(a).start == ParseSlot(b).start
    ensures StartText(a) <= b <==> StartText(b) <= a
  {
    if ParseSlot(a).start == ParseSlot(b).start {
      TwoDigitInjective(a[0], a[1], b[0], b[1]);
      TwoDigitInjective(a[3], a[4], b[3], b[4]);
      assert StartText(a) == b[..5];
    }
    if StartText(a) <= b {
      assert a[..5] == b[..5];
      assert a[0] == b[0] && a[1] == b[1] && a[3] == b[3] && a[4] == b[4];
    }
  }
}
