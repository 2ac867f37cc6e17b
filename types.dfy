/**
 * The four metric types of the library. Each holds the one wire line it
 * was built from, fixed at construction, and hands it back unchanged.
 */
module Types {

  import opened Wrappers
  import opened Decimal
  import Wire

  const I64_MIN: int := -0x8000_0000_0000_0000
  const I64_MAX: int := 0x7fff_ffff_ffff_ffff
  const U64_MAX: int := 0xffff_ffff_ffff_ffff

  /** Rust's `i64`, the range of a counter's delta. */
  type I64 = x: int | I64_MIN <= x <= I64_MAX

  /** Rust's `u64`, the range of timer, gauge and meter values. */
  type U64 = x: int | 0 <= x <= U64_MAX

  /**
   * What `new` guarantees of a stored string: it reads back as a line of
   * type `t`, its value lies in `lo..hi`, and its name holds the '.' that
   * joins prefix and key.
   */
  predicate IsLineOf(repr: string, t: Wire.MetricType, lo: int, hi: int) {
    var s := Wire.ParseLine(repr);
    s.Some? && s.value.metricType == t && lo <= s.value.value <= hi && '.' in s.value.name
  }

  /** A value that counts up or down by a signed delta; its line ends in `|c`. */
  datatype Counter = Counter(repr: string) {

    static function New(prefix: string, key: string, count: I64): (c: Counter)
      ensures c.AsMetricStr() == Wire.FormatLine(prefix, key, count, Wire.CounterType)
      ensures Wire.ParseLine(c.AsMetricStr()) == Some(Wire.Sample(prefix + "." + key, count, Wire.CounterType))
      ensures |c.AsMetricStr()| <= |prefix| + |key| + 24
      ensures c.Valid()
    {
      assert (prefix + "." + key)[|prefix|] == '.';
      Wire.FormatLineRoundTrip(prefix, key, count, Wire.CounterType);
      I64Width(count);
      Counter(Wire.FormatLine(prefix, key, count, Wire.CounterType))
    }

    function AsMetricStr(): string {
      repr
    }

    /** The stored string is a counter line as `New` builds it. */
    predicate Valid() {
      IsLineOf(repr, Wire.CounterType, I64_MIN, I64_MAX)
    }
  }

  /** A number of milliseconds; its line ends in `|ms`. */
  datatype Timer = Timer(repr: string) {

    static function New(prefix: string, key: string, time: U64): (m: Timer)
      ensures m.AsMetricStr() == Wire.FormatLine(prefix, key, time, Wire.TimerType)
      ensures Wire.ParseLine(m.AsMetricStr()) == Some(Wire.Sample(prefix + "." + key, time, Wire.TimerType))
      ensures |m.AsMetricStr()| <= |prefix| + |key| + 25
      ensures m.Valid()
    {
      assert (prefix + "." + key)[|prefix|] == '.';
      Wire.FormatLineRoundTrip(prefix, key, time, Wire.TimerType);
      U64Width(time);
      Timer(Wire.FormatLine(prefix, key, time, Wire.TimerType))
    }

    function AsMetricStr(): string {
      repr
    }

    /** The stored string is a timer line as `New` builds it. */
    predicate Valid() {
      IsLineOf(repr, Wire.TimerType, 0, U64_MAX)
    }
  }

  /** An instantaneous value set by the client; its line ends in `|g`. */
  datatype Gauge = Gauge(repr: string) {

    static function New(prefix: string, key: string, value: U64): (g: Gauge)
      ensures g.AsMetricStr() == Wire.FormatLine(prefix, key, value, Wire.GaugeType)
      ensures Wire.ParseLine(g.AsMetricStr()) == Some(Wire.Sample(prefix + "." + key, value, Wire.GaugeType))
      ensures |g.AsMetricStr()| <= |prefix| + |key| + 24
      ensures g.Valid()
    {
      assert (prefix + "." + key)[|prefix|] == '.';
      Wire.FormatLineRoundTrip(prefix, key, value, Wire.GaugeType);
      U64Width(value);
      Gauge(Wire.FormatLine(prefix, key, value, Wire.GaugeType))
    }

    function AsMetricStr(): string {
      repr
    }

    /** The stored string is a gauge line as `New` builds it. */
    predicate Valid() {
      IsLineOf(repr, Wire.GaugeType, 0, U64_MAX)
    }
  }

  /** An event count whose rate the server works out; its line ends in `|m`. */
  datatype Meter = Meter(repr: string) {

    static function New(prefix: string, key: string, value: U64): (m: Meter)
      ensures m.AsMetricStr() == Wire.FormatLine(prefix, key, value, Wire.MeterType)
      ensures Wire.ParseLine(m.AsMetricStr()) == Some(Wire.Sample(prefix + "." + key, value, Wire.MeterType))
      ensures |m.AsMetricStr()| <= |prefix| + |key| + 24
      ensures m.Valid()
    {
      assert (prefix + "." + key)[|prefix|] == '.';
      Wire.FormatLineRoundTrip(prefix, key, value, Wire.MeterType);
      U64Width(value);
      Meter(Wire.FormatLine(prefix, key, value, Wire.MeterType))
    }

    function AsMetricStr(): string {
      repr
    }

    /** The stored string is a meter line as `New` builds it. */
    predicate Valid() {
      IsLineOf(repr, Wire.MeterType, 0, U64_MAX)
    }
  }

  /** A timer line with a negative value is not one `Timer.New` can build. */
  lemma NegativeTimerInvalid()
    ensures !Timer("a.b:-1|ms").Valid()
  {
    assert "a.b:-1|ms" == "a.b" + [':'] + (IntToString(-1) + Wire.Suffix(Wire.TimerType));
    Wire.ParseNamedLine("a.b", -1, Wire.TimerType);
  }

  /** A counter line whose name has no '.' between prefix and key is not one `Counter.New` can build. */
  lemma UndottedCounterInvalid()
    ensures !Counter("x:4|c").Valid()
  {
    assert "x:4|c" == "x" + [':'] + (IntToString(4) + Wire.Suffix(Wire.CounterType));
    Wire.ParseNamedLine("x", 4, Wire.CounterType);
  }

  /** An `i64` renders in at most 20 characters: 19 digits and a sign. */
  lemma I64Width(i: I64)
    ensures |IntToString(i)| <= 20
  {
    assert Pow10(10) == 10_000_000_000;
    assert Pow10(19) == 10_000_000_000_000_000_000;
    if i < 0 {
      NatToStringLength(-(i as int), 19);
    } else {
      NatToStringLength(i, 19);
    }
  }

  /** A `u64` renders in at most 20 digits. */
  lemma U64Width(n: U64)
    ensures |IntToString(n)| <= 20
  {
    assert Pow10(10) == 10_000_000_000;
    assert Pow10(20) == 100_000_000_000_000_000_000;
    NatToStringLength(n, 20);
  }

  lemma CounterGolden()
    ensures Counter.New("my.app", "test.counter", 4).AsMetricStr() == "my.app.test.counter:4|c"
  {
    assert IntToString(4) == "4";
    assert Wire.FormatLine("my.app", "test.counter", 4, Wire.CounterType) == "my.app.test.counter:4|c";
  }

  lemma TimerGolden()
    ensures Timer.New("my.app", "test.timer", 34).AsMetricStr() == "my.app.test.timer:34|ms"
  {
    assert IntToString(34) == "34";
    assert Wire.FormatLine("my.app", "test.timer", 34, Wire.TimerType) == "my.app.test.timer:34|ms";
  }

  lemma GaugeGolden()
    ensures Gauge.New("my.app", "test.gauge", 2).AsMetricStr() == "my.app.test.gauge:2|g"
  {
    assert IntToString(2) == "2";
    assert Wire.FormatLine("my.app", "test.gauge", 2, Wire.GaugeType) == "my.app.test.gauge:2|g";
  }

  lemma MeterGolden()
    ensures Meter.New("my.app", "test.meter", 5).AsMetricStr() == "my.app.test.meter:5|m"
  {
    assert IntToString(5) == "5";
    assert Wire.FormatLine("my.app", "test.meter", 5, Wire.MeterType) == "my.app.test.meter:5|m";
  }

  /** A negative delta is written with its sign: the value field starts with '-'. */
  lemma NegativeCounterGolden()
    ensures Counter.New("my.app", "errors", -3).AsMetricStr() == "my.app.errors:-3|c"
  {
    assert IntToString(-3) == "-3";
    assert Wire.FormatLine("my.app", "errors", -3, Wire.CounterType) == "my.app.errors:-3|c";
  }
}
