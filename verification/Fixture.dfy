/**
 * Fixture timestamps (crates/app/src/devfixture.rs): which anchors validation
 * accepts, and the date string git is given for them (section 5.6 of RFC 3339).
 */
module Fixture {
  import opened Common
  import opened Civil

  type i64 = x: int | -0x8000_0000_0000_0000 <= x < 0x8000_0000_0000_0000

  const MAX_FIXTURE_TIMESTAMP_MS: int := 253_402_300_799_999
  const MS_PER_DAY: int := 86_400_000

  predicate InI64(x: int) {
    -0x8000_0000_0000_0000 <= x < 0x8000_0000_0000_0000
  }

  // ---------------------------------------------------------------------- validation

  datatype SeedSession = SeedSession(createdOffsetMs: i64, updatedOffsetMs: i64)

  datatype Problem =
    | BaselineOverflows
    | BaselineOutOfRange
    | CreatedOverflows(session: nat)
    | UpdatedOverflows(session: nat)
    | CreatedOutOfRange(session: nat)
    | UpdatedOutOfRange(session: nat)

  predicate InRange(ms: int) {
    0 <= ms <= MAX_FIXTURE_TIMESTAMP_MS
  }

  predicate SessionFits(s: SeedSession, now: i64) {
    InRange(now + s.createdOffsetMs) && InRange(now + s.updatedOffsetMs)
  }

  /** Whether the message tells the truth about the anchor. */
  predicate Explains(p: Problem, sessions: seq<SeedSession>, now: i64) {
    match p
    case BaselineOverflows => !InI64(now - MS_PER_DAY)
    case BaselineOutOfRange => InI64(now - MS_PER_DAY) && !InRange(now - MS_PER_DAY)
    case CreatedOverflows(i) => i < |sessions| && !InI64(now + sessions[i].createdOffsetMs)
    case UpdatedOverflows(i) => i < |sessions| && !InI64(now + sessions[i].updatedOffsetMs)
    case CreatedOutOfRange(i) => i < |sessions| && !InRange(now + sessions[i].createdOffsetMs)
    case UpdatedOutOfRange(i) => i < |sessions| && !InRange(now + sessions[i].updatedOffsetMs)
  }

  function ProblemAt(p: Problem): nat {
    if p.BaselineOverflows? || p.BaselineOutOfRange? then 0 else p.session
  }

  /**
   * Accepts exactly the anchors for which the baseline day and every session
   * timestamp lie in 1970..9999; a refusal names the first session that does not.
   */
  method ValidateSeedTimestamps(sessions: seq<SeedSession>, now: i64) returns (problem: Option<Problem>)
    ensures problem.None? <==>
      InRange(now - MS_PER_DAY) && forall i | 0 <= i < |sessions| :: SessionFits(sessions[i], now)
    ensures problem.Some? ==> Explains(problem.value, sessions, now)
    ensures problem.Some? ==>
      forall i | 0 <= i < ProblemAt(problem.value) :: SessionFits(sessions[i], now)
  {
    if !InI64(now - MS_PER_DAY) {
      return Some(BaselineOverflows);
    }
    if !InRange(now - MS_PER_DAY) {
      return Some(BaselineOutOfRange);
    }
    var i := 0;
    while i < |sessions|
      invariant 0 <= i <= |sessions|
      invariant forall j | 0 <= j < i :: SessionFits(sessions[j], now)
    {
      var created := now + sessions[i].createdOffsetMs;
      if !InI64(created) {
        return Some(CreatedOverflows(i));
      }
      var updated := now + sessions[i].updatedOffsetMs;
      if !InI64(updated) {
        return Some(UpdatedOverflows(i));
      }
      if !InRange(created) {
        return Some(CreatedOutOfRange(i));
      }
      if !InRange(updated) {
        return Some(UpdatedOutOfRange(i));
      }
      i := i + 1;
    }
    return None;
  }

  // ---------------------------------------------------------------- event timestamps

  /** The session's events end at its update, ten milliseconds apart. */
  function EventStamp(updated: int, total: nat, index: int): int {
    updated - (total - 1 - index) * 10
  }

  /** Refused exactly when the first event would not come after the session's creation. */
  method EventTimestamps(created: int, updated: int, total: nat) returns (stamps: Option<seq<int>>)
    ensures stamps.Some? <==> total == 0 || EventStamp(updated, total, 0) > created
    ensures stamps.Some? ==> |stamps.value| == total
    ensures stamps.Some? ==> forall i | 0 <= i < total :: stamps.value[i] == EventStamp(updated, total, i) > created
  {
    var pushed: seq<int> := [];
    var index := 0;
    while index < total
      invariant 0 <= index <= total && |pushed| == index
      invariant forall i | 0 <= i < index :: pushed[i] == EventStamp(updated, total, i) > created
    {
      var timestamp := updated - (total - 1 - index) * 10;
      if timestamp <= created {
        return None;
      }
      pushed := pushed + [timestamp];
      index := index + 1;
    }
    return Some(pushed);
  }

  /** So each event of an accepted session is in range, after its creation, not after its update, and in order. */
  lemma EventStampsFit(s: SeedSession, now: i64, total: nat, i: nat)
    requires SessionFits(s, now) && i < total
    requires EventStamp(now + s.updatedOffsetMs, total, 0) > now + s.createdOffsetMs
    ensures var at := EventStamp(now + s.updatedOffsetMs, total, i);
      && InRange(at) && now + s.createdOffsetMs < at <= now + s.updatedOffsetMs
      && (i > 0 ==> EventStamp(now + s.updatedOffsetMs, total, i - 1) < at)
  {
  }

  // ------------------------------------------------------------------------ printing

  function Digit(n: int): char
    requires 0 <= n < 10
  {
    "0123456789"[n]
  }

  function Digits(n: nat): (s: string)
    ensures s != []
  {
    if n < 10 then [Digit(n)] else Digits(n / 10) + [Digit(n % 10)]
  }

  function Zeros(k: nat): (s: string)
    ensures |s| == k
  {
    seq(k, _ => '0')
  }

  /** `{:0width}`: zeros between the sign, if any, and the digits. */
  function Padded(n: int, width: nat): string {
    if n < 0 then
      var s := Digits(-n);
      "-" + Zeros(SaturatingSub(width, |s| + 1)) + s
    else
      var s := Digits(n);
      Zeros(SaturatingSub(width, |s|)) + s
  }

  function PrintDate(t: DateTime): string {
    Padded(t.year, 4) + "-" + Padded(t.month, 2) + "-" + Padded(t.day, 2)
    + "T" + Padded(t.hour, 2) + ":" + Padded(t.minute, 2) + ":" + Padded(t.second, 2) + "Z"
  }

  function UnixMsToGitDate(unixMs: int): string {
    PrintDate(CivilFromUnix(unixMs / 1000))
  }

  // ------------------------------------------------------------------------- reading

  function DigitValue(c: char): int {
    c as int - '0' as int
  }

  function Value(s: string): int {
    if s == [] then 0 else 10 * Value(s[..|s| - 1]) + DigitValue(s[|s| - 1])
  }

  /** The six numbers at their fixed places. */
  function ReadDate(s: string): DateTime
    requires |s| == 20
  {
    DateTime(Value(s[0..4]), Value(s[5..7]), Value(s[8..10]), Value(s[11..13]), Value(s[14..16]), Value(s[17..19]))
  }

  predicate Shaped(s: string) {
    |s| == 20 && s[4] == '-' && s[7] == '-' && s[10] == 'T' && s[13] == ':' && s[16] == ':' && s[19] == 'Z'
  }

  lemma {:induction false} DigitsRead(n: nat)
    ensures Value(Digits(n)) == n
  {
    if n < 10 {
      assert [Digit(n)][..0] == [];
      assert Value([Digit(n)][..0]) == 0;
    } else {
      DigitsRead(n / 10);
      assert Digits(n)[..|Digits(n)| - 1] == Digits(n / 10);
    }
  }

  lemma {:induction false} ZerosRead(k: nat, s: string)
    ensures Value(Zeros(k) + s) == Value(s)
  {
    if s != [] {
      var n := |s| - 1;
      ZerosRead(k, s[..n]);
      assert (Zeros(k) + s)[..k + n] == Zeros(k) + s[..n];
    } else if k > 0 {
      ZerosRead(k - 1, []);
      assert Zeros(k) + [] == Zeros(k);
      assert Zeros(k)[..k - 1] == Zeros(k - 1) + [];
    }
  }

  lemma DigitsFit(n: nat)
    ensures n < 100 ==> |Digits(n)| <= 2
    ensures n < 10_000 ==> |Digits(n)| <= 4
  {
    if n < 10_000 {
      assert n / 10 < 1000 && n / 10 / 10 < 100 && n / 10 / 10 / 10 < 10;
      assert |Digits(n / 10 / 10 / 10)| == 1;
      assert |Digits(n / 10 / 10)| <= 2;
      assert |Digits(n / 10)| <= 3;
    }
  }

  lemma PaddedReads(n: nat, width: nat)
    requires |Digits(n)| <= width
    ensures |Padded(n, width)| == width && Value(Padded(n, width)) == n
  {
    DigitsRead(n);
    ZerosRead(width - |Digits(n)|, Digits(n));
  }

  /** A date with a four-digit year prints to 20 characters that read back to it. */
  lemma PrintReads(t: DateTime)
    requires ValidDateTime(t) && 0 <= t.year <= 9999
    ensures Shaped(PrintDate(t)) && ReadDate(PrintDate(t)) == t
  {
    hide Padded, Value, Digits;
    FieldsRead(t);
    var s := PrintDate(t);
    assert s[0..4] == Padded(t.year, 4);
    assert s[5..7] == Padded(t.month, 2);
    assert s[8..10] == Padded(t.day, 2);
    assert s[11..13] == Padded(t.hour, 2);
    assert s[14..16] == Padded(t.minute, 2);
    assert s[17..19] == Padded(t.second, 2);
  }

  lemma FieldsRead(t: DateTime)
    requires ValidDateTime(t) && 0 <= t.year <= 9999
    ensures |Padded(t.year, 4)| == 4 && Value(Padded(t.year, 4)) == t.year
    ensures |Padded(t.month, 2)| == 2 && Value(Padded(t.month, 2)) == t.month
    ensures |Padded(t.day, 2)| == 2 && Value(Padded(t.day, 2)) == t.day
    ensures |Padded(t.hour, 2)| == 2 && Value(Padded(t.hour, 2)) == t.hour
    ensures |Padded(t.minute, 2)| == 2 && Value(Padded(t.minute, 2)) == t.minute
    ensures |Padded(t.second, 2)| == 2 && Value(Padded(t.second, 2)) == t.second
  {
    hide Padded, Value, Digits;
    DigitsFit(t.year);
    PaddedReads(t.year, 4);
    DigitsFit(t.month);
    PaddedReads(t.month, 2);
    DigitsFit(t.day);
    PaddedReads(t.day, 2);
    DigitsFit(t.hour);
    PaddedReads(t.hour, 2);
    DigitsFit(t.minute);
    PaddedReads(t.minute, 2);
    DigitsFit(t.second);
    PaddedReads(t.second, 2);
  }

  /** The accepted range is exactly the range of the years 1970 to 9999. */
  lemma AcceptedYears(ms: int)
    ensures InRange(ms) <==> 1970 <= CivilFromUnix(ms / 1000).year <= 9999
  {
    hide CivilFromUnix, UnixOf;
    var first, last := 0, 253_402_300_799;
    EndsOfRange();
    CivilIsExact(ms / 1000);
    CivilIsMonotone(ms / 1000, first);
    CivilIsMonotone(last, ms / 1000);
    assert InRange(ms) <==> first <= ms / 1000 <= last;
    LastSecondOf9999(CivilFromUnix(ms / 1000));
  }

  lemma EndsOfRange()
    ensures CivilFromUnix(0) == DateTime(1970, 1, 1, 0, 0, 0)
    ensures CivilFromUnix(253_402_300_799) == DateTime(9999, 12, 31, 23, 59, 59)
  {
    hide CivilFromUnix;
    NamesItsSecond(DateTime(1970, 1, 1, 0, 0, 0), 0, 0);
    LastDayNumber();
    NamesItsSecond(DateTime(9999, 12, 31, 23, 59, 59), 2_932_896, 253_402_300_799);
  }

  lemma LastDayNumber()
    ensures DayNumber(9999, 12, 31) == 2_932_896
  {
    hide MonthStart, YearStart;
    YearStartClosed(9999);
    MonthStarts(9999);
    assert !IsLeap(9999) && Leaps(9998) - Leaps(1969) == 1947;
    hide IsLeap, Leaps;
    assert MonthStart(9999, 9 + 3) == MonthStart(9999, 3) + (153 * 9 + 2) / 5;
  }

  lemma NamesItsSecond(t: DateTime, day: int, seconds: int)
    requires ValidDateTime(t) && DayNumber(t.year, t.month, t.day) == day
    requires day * 86_400 + t.hour * 3600 + t.minute * 60 + t.second == seconds
    ensures CivilFromUnix(seconds) == t
  {
    hide CivilFromUnix, DayNumber;
    CivilInvertsUnix(t);
  }

  lemma LastSecondOf9999(t: DateTime)
    requires ValidDateTime(t)
    ensures Before(t, DateTime(1970, 1, 1, 0, 0, 0)) <==> t.year < 1970
    ensures Before(DateTime(9999, 12, 31, 23, 59, 59), t) <==> t.year > 9999
  {
  }

  /** For every accepted timestamp the string has the fixed shape and reads back to its second. */
  lemma GitDateRoundTrip(ms: int)
    requires InRange(ms)
    ensures var s := UnixMsToGitDate(ms);
      Shaped(s) && ValidDateTime(ReadDate(s)) && UnixOf(ReadDate(s)) == ms / 1000
  {
    AcceptedYears(ms);
    CivilIsExact(ms / 1000);
    PrintReads(CivilFromUnix(ms / 1000));
  }
}
