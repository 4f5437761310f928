/**
 Names of durable entries: queue entries, archive trees, event identifiers
 (paths.py, request_validation.py and the archive-name parts of
 recalculation.py and public_views.py).
 */
module Names {
  import opened Common

  const QUEUE_ENTRY_WIDTH := 20
  const NATIVE_BASENAME_LIMIT_BYTES := 255
  const EVENT_ID_LIMIT_BYTES := 231
  const ARCHIVE_TIMESTAMP_LENGTH := 23
  const ARCHIVE_ATTEMPTS := 1_000_000

  // ---------------------------------------------------------------- digits

  predicate IsDigit(c: char) {
    '0' <= c <= '9'
  }

  predicate AllDigits(s: string) {
    forall i | 0 <= i < |s| :: IsDigit(s[i])
  }

  function Power10(n: nat): (p: nat)
    ensures p >= 1
  {
    if n == 0 then 1 else 10 * Power10(n - 1)
  }

  function Digit(d: nat): (c: char)
    requires d < 10
    ensures IsDigit(c)
  {
    '0' + d as char
  }

  /** The low `width` decimal digits of `n`, zero padded. */
  function Fixed(n: nat, width: nat): (s: string)
    ensures |s| == width && AllDigits(s)
  {
    if width == 0 then [] else Fixed(n / 10, width - 1) + [Digit(n % 10)]
  }

  function Value(s: string): nat
    requires AllDigits(s)
  {
    if s == [] then 0 else 10 * Value(s[..|s| - 1]) + (s[|s| - 1] as int - '0' as int)
  }

  lemma {:induction false} ValueOfFixed(n: nat, width: nat)
    requires n < Power10(width)
    ensures Value(Fixed(n, width)) == n
  {
    if width > 0 {
      ValueOfFixed(n / 10, width - 1);
      var s := Fixed(n, width);
      assert s[..width - 1] == Fixed(n / 10, width - 1);
    }
  }

  lemma LastDigit(v: nat, d: nat)
    requires d < 10
    ensures (10 * v + d) / 10 == v && (10 * v + d) % 10 == d
  {
  }

  lemma {:induction false} FixedOfValue(s: string)
    requires AllDigits(s)
    ensures Value(s) < Power10(|s|) && Fixed(Value(s), |s|) == s
  {
    if s != [] {
      var front, last := s[..|s| - 1], s[|s| - 1];
      FixedOfValue(front);
      LastDigit(Value(front), last as int - '0' as int);
      assert Digit(last as int - '0' as int) == last;
      assert s == front + [last];
    }
  }

  /** Python's ordering of strings. */
  predicate Before(a: string, b: string) {
    b != [] && (a == [] || a[0] < b[0] || (a[0] == b[0] && Before(a[1..], b[1..])))
  }

  lemma {:induction false} BeforeAppend(a: string, b: string, x: char, y: char)
    requires |a| == |b|
    ensures Before(a + [x], b + [y]) <==> Before(a, b) || (a == b && x < y)
  {
    if a == [] {
      assert a + [x] == [x] && b + [y] == [y];
    } else {
      BeforeAppend(a[1..], b[1..], x, y);
      assert (a + [x])[1..] == a[1..] + [x];
      assert (b + [y])[1..] == b[1..] + [y];
      assert a == [a[0]] + a[1..] && b == [b[0]] + b[1..];
    }
  }

  lemma {:induction false} FixedOrder(m: nat, n: nat, width: nat)
    requires m < Power10(width) && n < Power10(width)
    ensures Before(Fixed(m, width), Fixed(n, width)) <==> m < n
  {
    if width > 0 {
      FixedOrder(m / 10, n / 10, width - 1);
      BeforeAppend(Fixed(m / 10, width - 1), Fixed(n / 10, width - 1), Digit(m % 10), Digit(n % 10));
      ValueOfFixed(m / 10, width - 1);
      ValueOfFixed(n / 10, width - 1);
    }
  }

  // ---------------------------------------------------------- queue entries

  function Decimal(n: nat): string {
    if n < 10 then [Digit(n)] else Decimal(n / 10) + [Digit(n % 10)]
  }

  function QueueEntryName(sequence: int): Result<string> {
    if sequence < 1 then Raised
    else if sequence < Power10(QUEUE_ENTRY_WIDTH) then Ok(Fixed(sequence, QUEUE_ENTRY_WIDTH))
    else Ok(Decimal(sequence))
  }

  function ParseQueueEntryName(name: string): Result<nat> {
    if |name| != QUEUE_ENTRY_WIDTH || !AllDigits(name) then Raised
    else if Value(name) < 1 then Raised
    else Ok(Value(name))
  }

  /** Within twenty digits, names and sequences determine each other and sort alike. */
  lemma QueueNamesRoundTrip(sequence: nat)
    requires 1 <= sequence < Power10(QUEUE_ENTRY_WIDTH)
    ensures QueueEntryName(sequence).Ok?
    ensures ParseQueueEntryName(QueueEntryName(sequence).value) == Ok(sequence)
  {
    ValueOfFixed(sequence, QUEUE_ENTRY_WIDTH);
  }

  lemma ParsedQueueNameIsCanonical(name: string)
    requires ParseQueueEntryName(name).Ok?
    ensures QueueEntryName(ParseQueueEntryName(name).value) == Ok(name)
  {
    FixedOfValue(name);
  }

  lemma QueueNamesSortNumerically(a: string, b: string)
    requires ParseQueueEntryName(a).Ok? && ParseQueueEntryName(b).Ok?
    ensures Before(a, b) <==> ParseQueueEntryName(a).value < ParseQueueEntryName(b).value
  {
    FixedOfValue(a);
    FixedOfValue(b);
    FixedOrder(Value(a), Value(b), QUEUE_ENTRY_WIDTH);
  }

  lemma {:induction false} DecimalIsLong(n: nat, width: nat)
    requires width > 0 && n >= Power10(width)
    ensures |Decimal(n)| > width
  {
    if width > 1 {
      DecimalIsLong(n / 10, width - 1);
    }
  }

  /** A sequence of 10^20 or more is named, but its name never parses back. */
  lemma OverlongQueueNameIsMalformed(sequence: nat)
    requires sequence >= 1
    ensures ParseQueueEntryName(QueueEntryName(sequence).value).Raised?
       <==> sequence >= Power10(QUEUE_ENTRY_WIDTH)
  {
    if sequence >= Power10(QUEUE_ENTRY_WIDTH) {
      DecimalIsLong(sequence, QUEUE_ENTRY_WIDTH);
    } else {
      QueueNamesRoundTrip(sequence);
    }
  }

  // ------------------------------------------------------ event identifiers

  function CharBytes(c: char): (n: nat)
    ensures 1 <= n <= 4
  {
    if c as int < 0x80 then 1
    else if c as int < 0x800 then 2
    else if c as int < 0x1_0000 then 3
    else 4
  }

  function Utf8Length(s: string): nat {
    if s == [] then 0 else CharBytes(s[0]) + Utf8Length(s[1..])
  }

  predicate IsControl(c: char) {
    c as int < 0x20 || 0x7f <= c as int < 0xa0
  }

  predicate ValidBasename(s: string) {
    && s != "" && s != "." && s != ".."
    && '/' !in s
    && (forall c | c in s :: !IsControl(c))
    && Utf8Length(s) <= NATIVE_BASENAME_LIMIT_BYTES
  }

  predicate ValidEventId(s: string) {
    ValidBasename(s) && s[0] != '-' && Utf8Length(s) <= EVENT_ID_LIMIT_BYTES
  }

  lemma {:induction false} Utf8LengthOfConcat(a: string, b: string)
    ensures Utf8Length(a + b) == Utf8Length(a) + Utf8Length(b)
  {
    if a == [] {
      assert a + b == b;
    } else {
      Utf8LengthOfConcat(a[1..], b);
      assert (a + b)[1..] == a[1..] + b;
    }
  }

  lemma {:induction false} AsciiLength(s: string)
    requires forall i | 0 <= i < |s| :: s[i] as int < 0x80
    ensures Utf8Length(s) == |s|
  {
    if s != [] {
      AsciiLength(s[1..]);
    }
  }

  // --------------------------------------------------------- archive stamps

  datatype DateTime =
    DateTime(year: nat, month: nat, day: nat, hour: nat, minute: nat, second: nat, micro: nat)

  predicate LeapYear(year: nat) {
    year % 4 == 0 && (year % 100 != 0 || year % 400 == 0)
  }

  function DaysIn(year: nat, month: nat): (n: nat)
    ensures 28 <= n <= 31
  {
    if month == 2 then (if LeapYear(year) then 29 else 28)
    else if month in {4, 6, 9, 11} then 30
    else 31
  }

  predicate ValidDateTime(t: DateTime) {
    && 1 <= t.year <= 9999 && 1 <= t.month <= 12 && 1 <= t.day <= DaysIn(t.year, t.month)
    && t.hour < 24 && t.minute < 60 && t.second < 60 && t.micro < 1_000_000
  }

  /** One microsecond later; the end of year 9999 overflows. */
  function Tick(t: DateTime): (r: Result<DateTime>)
    requires ValidDateTime(t)
    ensures r.Ok? ==> ValidDateTime(r.value)
  {
    if t.micro < 999_999 then Ok(t.(micro := t.micro + 1))
    else
      var t := t.(micro := 0);
      if t.second < 59 then Ok(t.(second := t.second + 1))
      else
        var t := t.(second := 0);
        if t.minute < 59 then Ok(t.(minute := t.minute + 1))
        else
          var t := t.(minute := 0);
          if t.hour < 23 then Ok(t.(hour := t.hour + 1))
          else
            var t := t.(hour := 0);
            if t.day < DaysIn(t.year, t.month) then Ok(t.(day := t.day + 1))
            else
              var t := t.(day := 1);
              if t.month < 12 then Ok(t.(month := t.month + 1))
              else if t.year < 9999 then Ok(t.(month := 1, year := t.year + 1))
              else Raised
  }

  function Later(t: DateTime, offset: nat): (r: Result<DateTime>)
    requires ValidDateTime(t)
    ensures r.Ok? ==> ValidDateTime(r.value)
  {
    if offset == 0 then Ok(t)
    else
      var u :- Later(t, offset - 1);
      Tick(u)
  }

  /** A key that grows with every tick (31-day months, no carry lost). */
  function Clock(t: DateTime): nat {
    (((((t.year * 13 + t.month) * 32 + t.day) * 24 + t.hour) * 60 + t.minute) * 60 + t.second) * 1_000_000 + t.micro
  }

  lemma TickGrows(t: DateTime)
    requires ValidDateTime(t) && Tick(t).Ok?
    ensures Clock(t) < Clock(Tick(t).value)
  {
    var day := (t.year * 13 + t.month) * 32 + t.day;
    assert Clock(t) == ((day * 24 + t.hour) * 60 + t.minute) * 60_000_000 + t.second * 1_000_000 + t.micro;
  }

  /** `t` is before `u` in the calendar. */
  predicate Earlier(t: DateTime, u: DateTime) {
    if t.year != u.year then t.year < u.year
    else if t.month != u.month then t.month < u.month
    else if t.day != u.day then t.day < u.day
    else if t.hour != u.hour then t.hour < u.hour
    else if t.minute != u.minute then t.minute < u.minute
    else if t.second != u.second then t.second < u.second
    else t.micro < u.micro
  }

  /** No instant lies between one and the next, and only the last one of the year 9999 has none. */
  lemma TickIsTheNext(t: DateTime, u: DateTime)
    requires ValidDateTime(t) && ValidDateTime(u)
    ensures Earlier(t, u) <==> Tick(t).Ok? && (u == Tick(t).value || Earlier(Tick(t).value, u))
  {
  }

  lemma {:induction false} LaterGrows(t: DateTime, i: nat, j: nat)
    requires ValidDateTime(t) && i < j && Later(t, j).Ok?
    ensures Later(t, i).Ok? && Clock(Later(t, i).value) < Clock(Later(t, j).value)
  {
    hide Clock, Tick;
    if i + 1 < j {
      LaterGrows(t, i, j - 1);
    }
    TickGrows(Later(t, j - 1).value);
  }

  /** strftime("%Y%m%dT%H%M%S.%fZ"). */
  function Stamp(t: DateTime): (s: string)
    ensures |s| == ARCHIVE_TIMESTAMP_LENGTH
  {
    Fixed(t.year, 4) + Fixed(t.month, 2) + Fixed(t.day, 2) + "T" +
    Fixed(t.hour, 2) + Fixed(t.minute, 2) + Fixed(t.second, 2) + "." + Fixed(t.micro, 6) + "Z"
  }

  /** strptime of the same format on a text of exactly that length. */
  function ParseStamp(s: string): (r: Result<DateTime>)
    ensures r.Ok? ==> ValidDateTime(r.value)
  {
    if |s| != ARCHIVE_TIMESTAMP_LENGTH || s[8] != 'T' || s[15] != '.' || s[22] != 'Z' then Raised
    else if !(AllDigits(s[..4]) && AllDigits(s[4..6]) && AllDigits(s[6..8])) then Raised
    else if !(AllDigits(s[9..11]) && AllDigits(s[11..13]) && AllDigits(s[13..15])) then Raised
    else if !AllDigits(s[16..22]) then Raised
    else
      var t := DateTime(Value(s[..4]), Value(s[4..6]), Value(s[6..8]),
                        Value(s[9..11]), Value(s[11..13]), Value(s[13..15]), Value(s[16..22]));
      if ValidDateTime(t) then Ok(t) else Raised
  }

  function ArchiveName(eventId: string, t: DateTime): string {
    eventId + "-" + Stamp(t)
  }

  function ParseArchiveName(name: string): Result<(string, DateTime)> {
    var separator := |name| - ARCHIVE_TIMESTAMP_LENGTH - 1;
    if separator < 1 || name[separator] != '-' then Raised
    else if !ValidEventId(name[..separator]) then Raised
    else
      var t :- ParseStamp(name[separator + 1..]);
      Ok((name[..separator], t))
  }

  lemma PowersOfTen()
    ensures Power10(2) == 100 && Power10(4) == 10_000 && Power10(6) == 1_000_000
  {
    assert Power10(3) == 1000;
    assert Power10(5) == 100_000;
  }

  lemma StampRoundTrip(t: DateTime)
    requires ValidDateTime(t)
    ensures ParseStamp(Stamp(t)) == Ok(t)
  {
    hide Fixed, Value, Power10;
    var s := Stamp(t);
    PowersOfTen();
    ValueOfFixed(t.year, 4);
    ValueOfFixed(t.month, 2);
    ValueOfFixed(t.day, 2);
    ValueOfFixed(t.hour, 2);
    ValueOfFixed(t.minute, 2);
    ValueOfFixed(t.second, 2);
    ValueOfFixed(t.micro, 6);
    assert s[..4] == Fixed(t.year, 4) && s[4..6] == Fixed(t.month, 2) && s[6..8] == Fixed(t.day, 2);
    assert s[9..11] == Fixed(t.hour, 2) && s[11..13] == Fixed(t.minute, 2) && s[13..15] == Fixed(t.second, 2);
    assert s[16..22] == Fixed(t.micro, 6);
  }

  /** The archive view recovers exactly the event and instant a tree was archived under. */
  lemma ArchiveNameRoundTrip(eventId: string, t: DateTime)
    requires ValidEventId(eventId) && ValidDateTime(t)
    ensures ParseArchiveName(ArchiveName(eventId, t)) == Ok((eventId, t))
  {
    StampRoundTrip(t);
    var name := ArchiveName(eventId, t);
    assert name[..|eventId|] == eventId;
    assert name[|eventId| + 1..] == Stamp(t);
  }

  lemma ArchiveNamesAreInjective(a: string, t: DateTime, b: string, u: DateTime)
    requires ValidEventId(a) && ValidDateTime(t) && ValidEventId(b) && ValidDateTime(u)
    requires ArchiveName(a, t) == ArchiveName(b, u)
    ensures a == b && t == u
  {
    ArchiveNameRoundTrip(a, t);
    ArchiveNameRoundTrip(b, u);
  }

  lemma ArchiveNameFits(eventId: string, t: DateTime)
    requires ValidEventId(eventId) && ValidDateTime(t)
    ensures Utf8Length(ArchiveName(eventId, t)) == Utf8Length(eventId) + 24 <= NATIVE_BASENAME_LIMIT_BYTES
  {
    var tail := "-" + Stamp(t);
    assert ArchiveName(eventId, t) == eventId + tail;
    assert forall i | 0 <= i < |tail| :: tail[i] as int < 0x80;
    Utf8LengthOfConcat(eventId, tail);
    AsciiLength(tail);
  }

  // ------------------------------------------------------- archive allocation

  /** The name tried at `offset`, when the clock can represent it. */
  function Attempt(eventId: string, t: DateTime, offset: nat): Result<string>
    requires ValidDateTime(t)
  {
    var u :- Later(t, offset);
    Ok(ArchiveName(eventId, u))
  }

  predicate FirstFree(existing: set<string>, eventId: string, t: DateTime, offset: nat)
    requires ValidDateTime(t)
  {
    && Attempt(eventId, t, offset).Ok? && Attempt(eventId, t, offset).value !in existing
    && forall i: nat | i < offset :: Attempt(eventId, t, i).Ok? && Attempt(eventId, t, i).value in existing
  }

  /** The first collision-free name, at most a second after the requested instant. */
  method ArchivePath(existing: set<string>, eventId: string, selected: DateTime)
    returns (r: Result<string>)
    requires ValidDateTime(selected)
    ensures r.Ok? <==> exists k: nat :: k < 1_000_000 && FirstFree(existing, eventId, selected, k)
    ensures r.Ok? ==> exists k: nat ::
      k < ARCHIVE_ATTEMPTS && FirstFree(existing, eventId, selected, k) && r == Attempt(eventId, selected, k)
  {
    var offset := 0;
    while offset < ARCHIVE_ATTEMPTS
      invariant 0 <= offset <= ARCHIVE_ATTEMPTS
      invariant forall i: nat | i < offset ::
        Attempt(eventId, selected, i).Ok? && Attempt(eventId, selected, i).value in existing
    {
      var candidate := Attempt(eventId, selected, offset);
      if candidate.Raised? {
        return Raised;
      }
      if candidate.value !in existing {
        assert FirstFree(existing, eventId, selected, offset);
        return candidate;
      }
      offset := offset + 1;
    }
    return Raised;
  }

  /** The first `n` attempted names are `n` different names. */
  lemma {:induction false} AttemptsAreDistinct(eventId: string, t: DateTime, n: nat) returns (names: set<string>)
    requires ValidEventId(eventId) && ValidDateTime(t)
    requires forall i: nat | i < n :: Attempt(eventId, t, i).Ok?
    ensures |names| == n
    ensures forall x | x in names :: exists i: nat :: i < n && Attempt(eventId, t, i) == Ok(x)
  {
    names := {};
    var k := 0;
    while k < n
      invariant 0 <= k <= n && |names| == k
      invariant forall x | x in names :: exists i: nat :: i < k && Attempt(eventId, t, i) == Ok(x)
    {
      var x := Attempt(eventId, t, k).value;
      if x in names {
        var i: nat :| i < k && Attempt(eventId, t, i) == Ok(x);
        LaterGrows(t, i, k);
        ArchiveNamesAreInjective(eventId, Later(t, i).value, eventId, Later(t, k).value);
        assert false;
      }
      names := names + {x};
      assert Attempt(eventId, t, k) == Ok(x);
      k := k + 1;
    }
  }

  /** With fewer than a million archive entries, allocation always finds a name. */
  lemma AllocationSucceeds(existing: set<string>, eventId: string, t: DateTime)
    requires ValidEventId(eventId) && ValidDateTime(t)
    requires |existing| < ARCHIVE_ATTEMPTS && Later(t, ARCHIVE_ATTEMPTS).Ok?
    ensures exists k: nat :: k < ARCHIVE_ATTEMPTS && FirstFree(existing, eventId, t, k)
  {
    forall i: nat | i < ARCHIVE_ATTEMPTS ensures Attempt(eventId, t, i).Ok? {
      LaterGrows(t, i, ARCHIVE_ATTEMPTS);
    }
    if forall i: nat | i < ARCHIVE_ATTEMPTS :: Attempt(eventId, t, i).value in existing {
      var names := AttemptsAreDistinct(eventId, t, ARCHIVE_ATTEMPTS);
      assert names <= existing;
      SubsetSize(names, existing);
    } else {
      var k: nat :| k < ARCHIVE_ATTEMPTS && Attempt(eventId, t, k).value !in existing;
      EarliestFree(existing, eventId, t, k);
    }
  }

  lemma {:induction false} EarliestFree(existing: set<string>, eventId: string, t: DateTime, k: nat)
    requires ValidDateTime(t)
    requires forall i: nat | i <= k :: Attempt(eventId, t, i).Ok?
    requires Attempt(eventId, t, k).value !in existing
    ensures exists j: nat :: j <= k && FirstFree(existing, eventId, t, j)
  {
    if i: nat :| i < k && Attempt(eventId, t, i).value !in existing {
      EarliestFree(existing, eventId, t, i);
    } else {
      assert FirstFree(existing, eventId, t, k);
    }
  }

  lemma {:induction false} SubsetSize<T>(a: set<T>, b: set<T>)
    requires a <= b
    ensures |a| <= |b|
  {
    if a != {} {
      var x :| x in a;
      SubsetSize(a - {x}, b - {x});
    }
  }
}
