/**
 * One StatsD metric line, `<prefix>.<key>:<value>|<type>`, as the metric
 * types of the library write it, and a reader for such lines that serves
 * as the formatter's inverse.
 */
module Wire {

  import opened Wrappers
  import opened Decimal

  /** The four kinds of metric the library emits. */
  datatype MetricType = CounterType | TimerType | GaugeType | MeterType

  /** The type tag that ends a line, separator included. */
  function Suffix(t: MetricType): (s: string)
    ensures |s| >= 2 && s[0] == '|'
    ensures forall i :: 1 <= i < |s| ==> 'a' <= s[i] <= 'z'
  {
    match t
    case CounterType => "|c"
    case TimerType => "|ms"
    case GaugeType => "|g"
    case MeterType => "|m"
  }

  function TypeOfSuffix(s: string): (r: Option<MetricType>)
    ensures r.Some? ==> Suffix(r.value) == s
  {
    if s == "|c" then Some(CounterType)
    else if s == "|ms" then Some(TimerType)
    else if s == "|g" then Some(GaugeType)
    else if s == "|m" then Some(MeterType)
    else None
  }

  /** Each type has its own tag, and the tag names the type back. */
  lemma SuffixRoundTrip(t: MetricType)
    ensures TypeOfSuffix(Suffix(t)) == Some(t)
  {
  }

  /** What a reader recovers from a line: the full metric name (prefix and key), the value and the type. */
  datatype Sample = Sample(name: string, value: int, metricType: MetricType)

  /**
   * The line for `value` under `prefix` and `key`. Keys are not escaped or
   * checked: a key holding ':' or '|' still yields this exact concatenation.
   */
  function FormatLine(prefix: string, key: string, value: int, t: MetricType): (line: string)
    ensures |line| == |prefix| + |key| + |IntToString(value)| + 2 + |Suffix(t)|
    ensures line[..|prefix| + 1] == prefix + "."
    ensures line[|line| - |Suffix(t)|..] == Suffix(t)
  {
    prefix + "." + key + ":" + IntToString(value) + Suffix(t)
  }

  /** Position of the last occurrence of `c` in `s`, if any. */
  function LastIndexOf(s: string, c: char): (r: Option<nat>)
    ensures r.Some? ==> r.value < |s| && s[r.value] == c && forall j :: r.value < j < |s| ==> s[j] != c
    ensures r.None? ==> forall j :: 0 <= j < |s| ==> s[j] != c
  {
    if s == [] then None
    else if s[|s| - 1] == c then Some(|s| - 1)
    else LastIndexOf(s[..|s| - 1], c)
  }

  /** Position of the first occurrence of `c` in `s`, if any. */
  function FirstIndexOf(s: string, c: char): (r: Option<nat>)
    ensures r.Some? ==> r.value < |s| && s[r.value] == c && forall j :: 0 <= j < r.value ==> s[j] != c
    ensures r.None? ==> forall j :: 0 <= j < |s| ==> s[j] != c
  {
    if s == [] then None
    else if s[0] == c then Some(0)
    else match FirstIndexOf(s[1..], c)
      case None => None
      case Some(i) => Some(i + 1)
  }

  /**
   * Reads a line back: the name runs up to the last ':' (values and type
   * tags never hold one), and the rest is read by `ParseField`.
   */
  function ParseLine(line: string): Option<Sample> {
    match LastIndexOf(line, ':')
    case None => None
    case Some(i) =>
      match ParseField(line[i + 1..])
      case None => None
      case Some((v, t)) => Some(Sample(line[..i], v, t))
  }

  /** Reads `<value>|<type>`: the value runs up to the first '|', and the rest must be a type tag. */
  function ParseField(field: string): Option<(int, MetricType)> {
    match FirstIndexOf(field, '|')
    case None => None
    case Some(j) =>
      match (ParseInt(field[..j]), TypeOfSuffix(field[j..]))
      case (Some(v), Some(t)) => Some((v, t))
      case _ => None
  }

  lemma {:induction false} LastIndexOfAt(a: string, c: char, b: string)
    requires forall j :: 0 <= j < |b| ==> b[j] != c
    ensures LastIndexOf(a + [c] + b, c) == Some(|a|)
  {
    var s := a + [c] + b;
    if b == [] {
      assert s[|s| - 1] == c;
    } else {
      var b' := b[..|b| - 1];
      assert s[|s| - 1] == b[|b| - 1];
      assert s[..|s| - 1] == a + [c] + b';
      LastIndexOfAt(a, c, b');
    }
  }

  lemma FirstIndexOfAt(a: string, c: char, b: string)
    requires forall j :: 0 <= j < |a| ==> a[j] != c
    ensures FirstIndexOf(a + [c] + b, c) == Some(|a|)
  {
    var s := a + [c] + b;
    assert s[|a|] == c;
    forall j | 0 <= j < |a| ensures s[j] != c {
      assert s[j] == a[j];
    }
  }

  /** The value field and the type tag of a line never hold a ':'. */
  lemma TailHasNoColon(value: int, t: MetricType)
    ensures forall j :: 0 <= j < |IntToString(value) + Suffix(t)| ==> (IntToString(value) + Suffix(t))[j] != ':'
  {
    var digits := IntToString(value);
    var tail := digits + Suffix(t);
    IntToStringSymbols(value);
    forall j | 0 <= j < |tail| ensures tail[j] != ':' {
      if j >= |digits| {
        assert tail[j] == Suffix(t)[j - |digits|];
      } else {
        assert tail[j] == digits[j];
      }
    }
  }

  lemma ParseTail(value: int, t: MetricType)
    ensures ParseField(IntToString(value) + Suffix(t)) == Some((value, t))
  {
    var digits := IntToString(value);
    var sfx := Suffix(t);
    IntToStringSymbols(value);
    assert sfx == [sfx[0]] + sfx[1..];
    assert digits + sfx == digits + ['|'] + sfx[1..];
    FirstIndexOfAt(digits, '|', sfx[1..]);
    IntToStringRoundTrip(value);
    assert (digits + sfx)[..|digits|] == digits;
    assert (digits + sfx)[|digits|..] == sfx;
  }

  lemma ParseNamedLine(name: string, value: int, t: MetricType)
    ensures ParseLine(name + [':'] + (IntToString(value) + Suffix(t))) == Some(Sample(name, value, t))
  {
    var tail := IntToString(value) + Suffix(t);
    var line := name + [':'] + tail;
    TailHasNoColon(value, t);
    LastIndexOfAt(name, ':', tail);
    assert line[|name| + 1..] == tail;
    assert line[..|name|] == name;
    ParseTail(value, t);
  }

  /** Reading a formatted line gives back the name `prefix.key`, the value and the type. */
  lemma FormatLineRoundTrip(prefix: string, key: string, value: int, t: MetricType)
    ensures ParseLine(FormatLine(prefix, key, value, t)) == Some(Sample(prefix + "." + key, value, t))
  {
    var name := prefix + "." + key;
    assert FormatLine(prefix, key, value, t) == name + [':'] + (IntToString(value) + Suffix(t));
    ParseNamedLine(name, value, t);
  }

  /**
   * Formatting is injective: two equal lines come from the same name, the
   * same value and the same type. For a fixed prefix, key and type,
   * different values give different lines.
   */
  lemma FormatLineInjective(p1: string, k1: string, v1: int, t1: MetricType,
                            p2: string, k2: string, v2: int, t2: MetricType)
    requires FormatLine(p1, k1, v1, t1) == FormatLine(p2, k2, v2, t2)
    ensures p1 + "." + k1 == p2 + "." + k2 && v1 == v2 && t1 == t2
  {
    FormatLineRoundTrip(p1, k1, v1, t1);
    FormatLineRoundTrip(p2, k2, v2, t2);
  }
}
