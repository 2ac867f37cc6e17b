# Cadence metric types in Dafny

This project models `src/types.rs` of Cadence, a StatsD client for Rust.
That file holds two things:

- **The metric types.** `Counter`, `Timer`, `Gauge` and `Meter` each build one StatsD wire line when they are constructed: `prefix.key:value|c`, `|ms`, `|g` or `|m`. They keep that line and hand it back through `as_metric_str`.
- **The error type.** `MetricError` either wraps an I/O error or carries an `ErrorKind` with a fixed description. Its `kind` and `cause` accessors classify it.

All of this is pure, so the model is made of datatypes, functions and lemmas:

- `Decimal` (decimal.dfy) renders integers as Rust's `Display` does. There is no leading zero, zero is `"0"`, and a negative number gets a leading `-`. `ParseInt` is the inverse, and both round trips are proved.
- `Wire` (wire.dfy) defines the metric line, `FormatLine`. `ParseLine` reads a line back: the name runs up to the last `:`, the value runs up to the next `|`, and the rest is the type tag. Reading a formatted line gives back its name, value and type. From that round trip it follows that formatting is injective.
- `Types` (types.dfy) has one datatype per metric struct. Each has a static `New`, which is Rust's `new`, and an `AsMetricStr`. The value ranges are the subset types `I64` and `U64`. The unit tests' golden lines are proved as lemmas.
- `Errors` (errors.dfy) has `ErrorKind`, the private `ErrorRepr` and `MetricError`. `MetricError` has `Kind` and `Cause`, plus the two `From` conversions as `FromIo` and `FromDescription`. The `io::Error` of the standard library is an opaque `IoPayload`.
- `Wrappers` (wrappers.dfy) holds `Option` and `Result`.

The constructors in `types.rs` do not check their inputs. An empty prefix or key, or a key that contains `:`, `|` or a newline, still gives the plain concatenation. The model follows the code here and puts no `requires` on the prefix or the key.

## Model

| member | source | states |
|---|---|---|
| `Decimal.NatToString` | src/types.rs:64-66 | An unsigned value is written as Rust's `Display` writes it: it is non-empty, it has only digits, and it has no leading zero unless it is exactly `"0"` |
| `Decimal.IntToString` | src/types.rs:41-43 | A signed value starts with `-` exactly when it is negative, and the magnitude after the sign is canonical and does not start with `0` |
| `Decimal.IntToStringRoundTrip` | src/types.rs:41-43 | Parsing the rendering of any integer gives that integer back |
| `Decimal.ParseIntRoundTrip` | src/types.rs:41-43 | Any string that parses to an integer is exactly that integer's rendering, so there is only one way to write each value |
| `Decimal.IntToStringInjective` | src/types.rs:41-43 | Different values always render differently |
| `Decimal.NatToStringLength` | src/types.rs:64-66 | A rendering fits in k characters exactly when the value is below 10^k |
| `Wire.Suffix` | src/types.rs:41-112 | Every type tag starts with the `\|` separator, and one or more lower-case letters follow it |
| `Wire.SuffixRoundTrip` | src/types.rs:41-112 | Each metric type has its own tag, and the tag names that type back, so no two types share a tag |
| `Wire.FormatLine` | src/types.rs:41-112 | The line length is `\|prefix\| + \|key\| + \|dec(v)\| + 2 + \|suffix\|`, the line starts with `prefix.` and it ends with the tag of its type |
| `Wire.FormatLineRoundTrip` | src/types.rs:41-112 | Reading a formatted line back gives the name `prefix.key`, the value and the metric type it was built from |
| `Wire.FormatLineInjective` | src/types.rs:41-112 | Equal lines come from the same `prefix.key`, the same value and the same type, so for a fixed prefix, key and type different values give different lines |
| `Types.Counter.New` | src/types.rs:40-51 | The stored line, which `AsMetricStr` returns unchanged, is the `\|c` line for the signed `i64` delta. It reads back as that name, delta and type, and it is at most 24 characters longer than prefix plus key. The result satisfies `Valid`: the string is a counter line with its value in range and a `.` in its name |
| `Types.Timer.New` | src/types.rs:63-74 | The stored line is the `\|ms` line for the `u64` duration. It reads back as that name, duration and type, and it is at most 25 characters longer than prefix plus key. The result satisfies `Valid`: the string is a timer line with its value in range and a `.` in its name |
| `Types.Gauge.New` | src/types.rs:86-97 | The stored line is the `\|g` line for the `u64` value. It reads back as that name, value and type, and it is at most 24 characters longer than prefix plus key. The result satisfies `Valid`: the string is a gauge line with its value in range and a `.` in its name |
| `Types.Meter.New` | src/types.rs:109-120 | The stored line is the `\|m` line for the `u64` value. It reads back as that name, value and type, and it is at most 24 characters longer than prefix plus key. The result satisfies `Valid`: the string is a meter line with its value in range and a `.` in its name |
| `Types.NegativeTimerInvalid` | src/types.rs:63-66 | A timer string with a negative value fails `Valid`, because `new` takes a `u64` |
| `Types.UndottedCounterInvalid` | src/types.rs:40-43 | A counter string whose name has no `.` fails `Valid`, because `new` always joins prefix and key with one |
| `Types.I64Width` | src/types.rs:41 | Any `i64` renders in at most 20 characters, counting the sign |
| `Types.U64Width` | src/types.rs:64 | Any `u64` renders in at most 20 digits |
| `Types.CounterGolden` | src/types.rs:207-210 | `("my.app", "test.counter", 4)` gives `my.app.test.counter:4\|c` |
| `Types.TimerGolden` | src/types.rs:213-216 | `("my.app", "test.timer", 34)` gives `my.app.test.timer:34\|ms` |
| `Types.GaugeGolden` | src/types.rs:219-222 | `("my.app", "test.gauge", 2)` gives `my.app.test.gauge:2\|g` |
| `Types.MeterGolden` | src/types.rs:225-228 | `("my.app", "test.meter", 5)` gives `my.app.test.meter:5\|m` |
| `Types.NegativeCounterGolden` | src/types.rs:41-43 | A negative delta is written with its sign: `("my.app", "errors", -3)` gives `my.app.errors:-3\|c` |
| `Errors.MetricError.Kind` | src/types.rs:148-153 | An error that wraps an I/O error has kind `IoError`, and a described error reports the kind it carries |
| `Errors.MetricError.Cause` | src/types.rs:175-180 | An error has a cause exactly when it wraps an I/O error, and the cause is that wrapped error |
| `Errors.MetricError.FromIo` | src/types.rs:184-188 | An error built from an I/O error has kind `IoError`, and that same I/O error is its cause |
| `Errors.MetricError.FromDescription` | src/types.rs:191-195 | An error built from a `(kind, description)` pair keeps that kind and has no cause |
| `Errors.CauseMeansIo` | src/types.rs:175-180 | Whenever `Cause` returns an error, `Kind` returns `IoError` |
| `Errors.ErrorOrigin` | src/types.rs:139-143 | Every error is one of the two conversions. An error with a cause is `FromIo` of that cause. An error without one is `FromDescription` of its kind and its stored description |
| `Errors.FromInjective` | src/types.rs:184-195 | Both conversions keep their arguments, and no I/O-wrapped error equals a described one, even when the described kind is `IoError` |

## Left out

- `Display::fmt` and `Error::description` of `MetricError` (src/types.rs:157-173) are not modelled. For the I/O variant they defer to the foreign `std::io::Error`, which is kept here as an opaque payload.
- `AsMetricStr` is a Rust trait. Dafny traits are not used, so each of the four datatypes has its own `AsMetricStr` function instead.
- The derived `PartialEq`, `Eq`, `Hash`, `Clone` and `Debug` impls are not modelled. For the metric types and `ErrorKind`, which derive `PartialEq`/`Eq`, Dafny's structural equality stands in for them. `MetricError` and `ErrorRepr` derive only `Debug`. So the `==` in `Errors.ErrorOrigin` and `Errors.FromInjective` compares the model's representation, while Rust code tells the two variants apart only through `kind()` and `cause()`.
- Types.Counter.New, Types.Timer.New, Types.Gauge.New, Types.Meter.New: in Rust the `repr` field is private, so `new` is the only way to get a metric. A Dafny datatype constructor is public, so `Counter("x")` is also a `Counter`, although its string is not a metric line. Each datatype's `Valid` predicate states what `new` guarantees of the string. The string reads back as a line of its own metric type, its value lies in the `i64` range for a counter or the `u64` range for the others, and its name contains the `.` that joins prefix and key. Every `New` establishes `Valid`, but the type system does not enforce it. `Valid` does not say that the name splits back into the original prefix and key, because a key may itself contain `.`.
- `MetricResult<T>` is only a type alias, with no behaviour to model.
- Wire.FormatLine: lengths are counted in characters (`seq<char>`). Rust counts UTF-8 bytes, so for a non-ASCII prefix or key the byte length is larger than the stated character length.
- `src/lib.rs` has crate documentation, re-exports and the constant `DEFAULT_PORT = 8125`. It holds no logic.
- `src/sinks.rs` and `src/client.rs` are not part of this model. So the UDP, buffered and asynchronous sinks are not modelled, and neither is the `StatsdClient` facade with its `incr`/`decr`/`count`/`time`/`gauge`/`meter` operations.
