/**
 * The slot catalogue of the booking form: zero-padded clock formatting and
 * the generation of one bookable slot every few minutes between a start and
 * an end time, inclusive of the end when it falls on a step.
 */
module Slots {
  import opened Wrappers
  import opened Text

  /** An hour/minute pair as the client keeps it. */
  datatype Clock = Clock(h: nat, m: nat)

  /** A bookable slot, displayed as `time` ("HH:MM") and keyed by `id` ("h-m", unpadded). */
  datatype Slot = Slot(time: string, id: string)

  const START_TIME := Clock(18, 30)
  const END_TIME := Clock(21, 30)
  const SLOT_INTERVAL_MIN: nat := 5

  function ToMinutes(c: Clock): nat {
    c.h * 60 + c.m
  }

  /** `String.prototype.padStart(width, fill)` with a one-character fill. */
  function PadStart(s: string, width: nat, fill: char): string {
    if |s| >= width then s else seq(width - |s|, _ => fill) + s
  }

  /** `pad`: the decimal form of `n`, left-padded with '0' to two characters. */
  function Pad(n: nat): string {
    PadStart(DecimalString(n), 2, '0')
  }

  /** Below 100, `pad` gives exactly the two decimal digits; a single digit gets a leading '0'. */
  lemma PadTwoDigits(n: nat)
    requires n < 100
    ensures Pad(n) == [DigitChar(n / 10), DigitChar(n % 10)]
    ensures n < 10 ==> Pad(n) == ['0', DigitChar(n)]
  {
    DecimalStringSmall(n);
    var d := DecimalString(n);
    if n < 10 {
      assert PadStart(d, 2, '0') == ['0'] + d;
    }
  }

  /** `pad` never shortens: from 10 on it is the plain decimal form. */
  lemma PadWide(n: nat)
    requires n >= 10
    ensures Pad(n) == DecimalString(n)
  {
  }

  /** `timeToString`: "HH:MM". */
  function TimeToString(h: nat, m: nat): string {
    Pad(h) + ":" + Pad(m)
  }

  /** For hours and minutes below 100 the time is five characters: two digits, ':', two digits. */
  lemma TimeToStringShape(h: nat, m: nat)
    requires h < 100 && m < 100
    ensures TimeToString(h, m) == [DigitChar(h / 10), DigitChar(h % 10), ':', DigitChar(m / 10), DigitChar(m % 10)]
    ensures |TimeToString(h, m)| == 5
  {
    PadTwoDigits(h);
    PadTwoDigits(m);
  }

  /** Reads an "HH:MM" string back into a clock; anything else is `None`. */
  function ReadTime(s: string): Option<Clock> {
    if |s| == 5 && IsDigit(s[0]) && IsDigit(s[1]) && s[2] == ':' && IsDigit(s[3]) && IsDigit(s[4])
    then Some(Clock(DigitValue(s[0]) * 10 + DigitValue(s[1]), DigitValue(s[3]) * 10 + DigitValue(s[4])))
    else None
  }

  lemma ReadTimeOfTimeToString(h: nat, m: nat)
    requires h < 100 && m < 100
    ensures ReadTime(TimeToString(h, m)) == Some(Clock(h, m))
  {
    TimeToStringShape(h, m);
  }

  /** The slot key `${h}-${m}`. */
  function SlotId(h: nat, m: nat): string {
    DecimalString(h) + "-" + DecimalString(m)
  }

  /** Length of the longest all-digit prefix. */
  function DigitRun(s: string): (n: nat)
    ensures n <= |s| && AllDigits(s[..n])
    ensures n < |s| ==> !IsDigit(s[n])
  {
    if s != [] && IsDigit(s[0]) then
      var n := 1 + DigitRun(s[1..]);
      assert s[..n] == [s[0]] + s[1..][..n - 1];
      n
    else
      0
  }

  lemma {:induction false} DigitRunOf(a: string, sep: char, rest: string)
    requires AllDigits(a) && !IsDigit(sep)
    ensures DigitRun(a + [sep] + rest) == |a|
    decreases |a|
  {
    if a != [] {
      assert (a + [sep] + rest)[1..] == a[1..] + [sep] + rest;
      DigitRunOf(a[1..], sep, rest);
    }
  }

  /** Distinct hour/minute pairs have distinct slot keys. */
  lemma SlotIdInjective(h1: nat, m1: nat, h2: nat, m2: nat)
    requires SlotId(h1, m1) == SlotId(h2, m2)
    ensures h1 == h2 && m1 == m2
  {
    var a, b := DecimalString(h1), DecimalString(m1);
    var c, d := DecimalString(h2), DecimalString(m2);
    var x := SlotId(h1, m1);
    DigitRunOf(a, '-', b);
    DigitRunOf(c, '-', d);
    assert a == x[..|a|] && c == x[..|c|];
    assert b == x[|a| + 1..] && d == x[|c| + 1..];
    DecimalStringInjective(h1, h2);
    DecimalStringInjective(m1, m2);
  }

  /** The slot for minute-of-day `t`. */
  function SlotAt(t: nat): Slot {
    Slot(TimeToString(t / 60, t % 60), SlotId(t / 60, t % 60))
  }

  lemma MinuteSplit(u: nat, v: nat)
    requires u / 60 == v / 60 && u % 60 == v % 60
    ensures u == v
  {
  }

  /** Different minutes of the day give different slot keys. */
  lemma SlotAtIdInjective(u: nat, v: nat)
    requires SlotAt(u).id == SlotAt(v).id
    ensures u == v
  {
    SlotIdInjective(u / 60, u % 60, v / 60, v % 60);
    MinuteSplit(u, v);
  }

  /** Before 100:00 a slot's time reads back as its own minute of the day. */
  lemma SlotAtTime(u: nat)
    requires u < 6000
    ensures ReadTime(SlotAt(u).time) == Some(Clock(u / 60, u % 60))
    ensures ToMinutes(ReadTime(SlotAt(u).time).value) == u
  {
    ReadTimeOfTimeToString(u / 60, u % 60);
  }

  /** The minutes of the day at which slots start: `t`, `t + interval`, ... up to `end`. */
  function Steps(t: nat, end: nat, interval: nat): seq<nat>
    requires interval > 0
    decreases end - t
  {
    if t > end then [] else [t] + Steps(t + interval, end, interval)
  }

  /** `slots` are the slots at the minutes `ms`, in order. */
  predicate Renders(slots: seq<Slot>, ms: seq<nat>) {
    |slots| == |ms| && forall k | 0 <= k < |ms| :: slots[k] == SlotAt(ms[k])
  }

  /** The k-th step is minute `t + interval * k`, and it does not pass `end`. */
  lemma {:induction false} StepsAt(t: nat, end: nat, interval: nat, k: nat)
    requires interval > 0 && k < |Steps(t, end, interval)|
    ensures Steps(t, end, interval)[k] == t + interval * k
    ensures t + interval * k <= end
    decreases k
  {
    if k > 0 {
      StepsAt(t + interval, end, interval, k - 1);
      assert interval * k == interval + interval * (k - 1);
    }
  }

  /** `n` steps fit when the n-th is within the window and the next one is past it. */
  lemma {:induction false} StepsLength(t: nat, end: nat, interval: nat, n: nat)
    requires interval > 0
    requires n > 0 ==> t + interval * (n - 1) <= end
    requires end < t + interval * n
    ensures |Steps(t, end, interval)| == n
    decreases n
  {
    if n > 0 {
      assert interval * (n - 1) >= 0;
      assert interval * n == interval + interval * (n - 1);
      if n > 1 {
        assert interval * (n - 1) == interval + interval * (n - 2);
      }
      StepsLength(t + interval, end, interval, n - 1);
    }
  }

  lemma MulStrict(c: nat, a: nat, b: nat)
    requires c > 0 && a < b
    ensures c * a < c * b
  {
    assert c * b == c * a + c * (b - a);
  }

  /** Slot starts strictly increase. */
  lemma StepsIncreasing(t: nat, end: nat, interval: nat)
    requires interval > 0
    ensures forall a, b | 0 <= a < b < |Steps(t, end, interval)| ::
      Steps(t, end, interval)[a] < Steps(t, end, interval)[b]
  {
    forall a, b | 0 <= a < b < |Steps(t, end, interval)|
      ensures Steps(t, end, interval)[a] < Steps(t, end, interval)[b]
    {
      StepsAt(t, end, interval, a);
      StepsAt(t, end, interval, b);
      MulStrict(interval, a, b);
    }
  }

  /** No two slots of a catalogue share a key. */
  lemma CatalogIdsDistinct(slots: seq<Slot>, t: nat, end: nat, interval: nat)
    requires interval > 0 && Renders(slots, Steps(t, end, interval))
    ensures forall a, b | 0 <= a < b < |slots| :: slots[a].id != slots[b].id
  {
    var ms := Steps(t, end, interval);
    StepsIncreasing(t, end, interval);
    forall a, b | 0 <= a < b < |slots| ensures slots[a].id != slots[b].id {
      if slots[a].id == slots[b].id {
        SlotAtIdInjective(ms[a], ms[b]);
      }
    }
  }

  /**
   * Read back, the k-th slot's time is minute `t + interval * k`, so slot
   * times strictly increase along the catalogue.
   */
  lemma CatalogTimes(slots: seq<Slot>, t: nat, end: nat, interval: nat)
    requires interval > 0 && end < 6000 && Renders(slots, Steps(t, end, interval))
    ensures forall k | 0 <= k < |slots| ::
      ReadTime(slots[k].time).Some? && ToMinutes(ReadTime(slots[k].time).value) == t + interval * k
    ensures forall a, b | 0 <= a < b < |slots| ::
      ToMinutes(ReadTime(slots[a].time).value) < ToMinutes(ReadTime(slots[b].time).value)
  {
    forall k | 0 <= k < |slots|
      ensures ReadTime(slots[k].time).Some? && ToMinutes(ReadTime(slots[k].time).value) == t + interval * k
    {
      StepsAt(t, end, interval, k);
      SlotAtTime(t + interval * k);
    }
    forall a, b | 0 <= a < b < |slots|
      ensures ToMinutes(ReadTime(slots[a].time).value) < ToMinutes(ReadTime(slots[b].time).value)
    {
      MulStrict(interval, a, b);
    }
  }

  /** The slot the loop renders at clock `h:m` is the slot at minute `h * 60 + m`. */
  lemma SlotAtClock(h: nat, m: nat)
    requires m < 60
    ensures SlotAt(h * 60 + m) == Slot(TimeToString(h, m), SlotId(h, m))
  {
    assert (h * 60 + m) / 60 == h && (h * 60 + m) % 60 == m;
  }

  /** The loop's exit test: a clock past `end` is at a later minute. */
  lemma ClockPast(h: nat, m: nat, end: Clock)
    requires m < 60 && end.m < 60
    requires !(h < end.h || (h == end.h && m <= end.m))
    ensures h * 60 + m > ToMinutes(end)
  {
    if h > end.h {
      assert h * 60 >= end.h * 60 + 60;
    }
  }

  /** `genSlots` over an arbitrary window and step. */
  method GenSlotsFrom(start: Clock, end: Clock, interval: nat) returns (slots: seq<Slot>)
    requires interval > 0 && start.m < 60 && end.m < 60
    ensures Renders(slots, Steps(ToMinutes(start), ToMinutes(end), interval))
  {
    slots := [];
    ghost var done: seq<nat> := [];
    var h: nat, m: nat := start.h, start.m;
    while h < end.h || (h == end.h && m <= end.m)
      invariant m < 60
      invariant done + Steps(h * 60 + m, ToMinutes(end), interval)
             == Steps(ToMinutes(start), ToMinutes(end), interval)
      invariant Renders(slots, done)
      decreases ToMinutes(end) + interval - (h * 60 + m)
    {
      ghost var t: nat := h * 60 + m;
      SlotAtClock(h, m);
      StepsCons(done, t, ToMinutes(end), interval);
      slots := slots + [Slot(TimeToString(h, m), SlotId(h, m))];
      done := done + [t];
      m := m + interval;
      while m >= 60
        invariant h * 60 + m == t + interval
        decreases m
      {
        m := m - 60;
        h := h + 1;
      }
    }
    ClockPast(h, m, end);
    assert done + [] == done;
  }

  /** One step of the walk: minute `t` comes next when it is within the window. */
  lemma StepsCons(pre: seq<nat>, t: nat, end: nat, interval: nat)
    requires interval > 0 && t <= end
    ensures (pre + [t]) + Steps(t + interval, end, interval) == pre + Steps(t, end, interval)
  {
    assert Steps(t, end, interval) == [t] + Steps(t + interval, end, interval);
  }

  /** The default window opens with slot "18:30" / "18-30" and closes with "21:30" / "21-30". */
  lemma WindowEnds()
    ensures ToMinutes(START_TIME) == 1110 && SlotAt(1110) == Slot("18:30", "18-30")
    ensures ToMinutes(END_TIME) == 1290 && SlotAt(1290) == Slot("21:30", "21-30")
  {
    assert 1110 / 60 == 18 && 1110 % 60 == 30;
    assert 1290 / 60 == 21 && 1290 % 60 == 30;
    assert DigitChar(0) == '0' && DigitChar(1) == '1' && DigitChar(2) == '2';
    assert DigitChar(3) == '3' && DigitChar(8) == '8';
    DecimalStringSmall(18);
    DecimalStringSmall(21);
    DecimalStringSmall(30);
    TimeToStringShape(18, 30);
    TimeToStringShape(21, 30);
  }

  /** `genSlots`: 18:30 to 21:30 in 5-minute steps. */
  method GenSlots() returns (slots: seq<Slot>)
    ensures |slots| == 37
    ensures slots[0] == Slot("18:30", "18-30") && slots[36] == Slot("21:30", "21-30")
    ensures forall k | 0 <= k < |slots| ::
      slots[k] == SlotAt(ToMinutes(START_TIME) + SLOT_INTERVAL_MIN * k) &&
      ToMinutes(START_TIME) + SLOT_INTERVAL_MIN * k <= ToMinutes(END_TIME)
    ensures forall a, b | 0 <= a < b < |slots| :: slots[a].id != slots[b].id
  {
    slots := GenSlotsFrom(START_TIME, END_TIME, SLOT_INTERVAL_MIN);
    WindowEnds();
    StepsLength(1110, 1290, 5, 37);
    forall k | 0 <= k < |slots|
      ensures slots[k] == SlotAt(1110 + 5 * k) && 1110 + 5 * k <= 1290
    {
      StepsAt(1110, 1290, 5, k);
    }
    CatalogIdsDistinct(slots, 1110, 1290, 5);
  }
}
