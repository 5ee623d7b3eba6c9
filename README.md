# Job record of the cracking-job queue, in Dafny

This project models `common/job.go` of cracklord. That file holds the `Job` record that the queue passes around, and three operations on it:

- `EmptyJob` gives a zero-valued job whose `Parameters` is an empty map.
- `NewJob` gives a job in the created state, with a fresh UUID.
- `CleanJobParamsForLogging` copies a job's parameters into a fresh map, leaving out five keys. Their values may carry hash lists or user-supplied dictionary rules, so they must not reach a log.

Everything is in `job.dfy`, module `Common`:

- `Job` is a datatype with the Go struct's twenty fields, in the same order and with the same names.
- `int64` is a newtype bounded to 64 bits.
- `time.Time` and `float64` are placeholder datatypes. Their zero values are `ZeroTime` and `ZeroFloat`. They are only stored, never computed with.
- `EmptyJob` and `NewJob` are functions. `NewJob` takes the value of `uuid.New()` as its first argument, `id`.
- The sanitizer has two parts:
  - `LoggableParams` is the pure specification: a map comprehension over the keys that are not in `Denylist`.
  - `CleanJobParamsForLogging` is a method. Like the Go code, it visits the keys one at a time, in an arbitrary order, and inserts each loggable entry into an accumulator. Its loop invariant says the accumulator is the cleaned part of the keys already visited. Its postcondition says the result equals `LoggableParams(j.Parameters)`.
- `Loggable` is the Go code's chain of five exact, case-sensitive `!=` tests. A lemma proves it agrees with `Denylist` on every key.

`STATUS_CREATED` is not declared in `job.go`. The model names it `StatusCreated` and gives it `"Created"` as a stand-in value, not the program's string. No lemma about the model depends on that value.

## Model

| member | source | states |
|---|---|---|
| `Common.EmptyJob` | common/job.go:34-39 | Every field has Go's zero value: empty strings (UUID and status included), empty sequences, zero counters, zero times and progress. `Parameters` is an empty map. `PerformanceData` is never made, so it is Go's nil map, which reads as empty here. |
| `Common.NewJob` | common/job.go:42-52 | The UUID is the generator's value. Tool, name, owner and parameters are the arguments. Status is `StatusCreated`. `PerformanceData` is an empty map. Every other field has its zero value. |
| `Common.NewJobIsFilledEmptyJob` | common/job.go:34-52 | A new job is the empty job with exactly UUID, tool, name, status, owner and parameters filled in. Nothing else differs. |
| `Common.NewJobIdentity` | common/job.go:44 | Two jobs made from the same arguments have different UUIDs, and are different jobs, exactly when the generator gave them different ids. |
| `Common.LoggableIffNotDenylisted` | common/job.go:59 | The source's chain of five string comparisons passes a key exactly when that key is not in the denylist. |
| `Common.LoggableParams` | common/job.go:55-65 | The result has no denylisted key. It keeps every non-denylisted key of the parameters with its identical value. Its keys are a subset of the parameters' keys. |
| `Common.CleanJobParamsForLogging` | common/job.go:55-65 | Visiting the keys in any order and copying the loggable entries into a fresh map yields exactly `LoggableParams` of the job's parameters. |
| `Common.LoggableParamsUnique` | common/job.go:56-61 | The three properties of `LoggableParams` determine its result: any map with them equals the cleaned map. |
| `Common.LoggableParamsInsert` | common/job.go:58-61 | Adding an entry and then cleaning gives the cleaned map plus that entry when its key is allowed. When the key is denylisted, the result is the cleaned map of the rest. |
| `Common.LoggableParamsEmpty` | common/job.go:56-58 | Empty parameters clean to an empty map. |
| `Common.LoggableParamsIdempotent` | common/job.go:58-61 | Cleaning a cleaned map returns it unchanged. So a job whose parameters are already its cleaned map cleans to that same map. |
| `Common.LoggableParamsSize` | common/job.go:58-61 | The result's size is the parameters' size minus the number of denylisted keys present. Exactly those entries are dropped. |
| `Common.CleanExample` | common/job.go:59 | Parameters `hashes_multiline`, `wordlist` and `dict_rules_use_custom` clean to just `wordlist := "rockyou"`. |

## Left out

- `uuid.New()` (common/job.go:44) is a foreign library call. Its value is a parameter of `NewJob`, and the model does not prove that generated ids are unique.
- Go's nil map versus empty map: Dafny maps are values with no nil. So `EmptyJob` cannot show the difference between its `Parameters` and a zero job's nil map. Writing into a nil map panics in Go; this model does not capture that.
- `EmptyJob`'s `PerformanceData` is not made (common/job.go:35-36), so in Go it stays a nil map, and writing into it panics. `NewJob` makes it with `make` (common/job.go:50). The model gives both as `map[]` and does not capture this difference.
- Aliasing: `NewJob` stores the caller's `params` map without copying it (common/job.go:49). `CleanJobParamsForLogging` returns a newly allocated map. Because Dafny maps are values, neither sharing nor freshness is visible. That `j` is never changed holds because a `Job` is a value.
- `time.Time` and `float64` are placeholders. The model does not capture their arithmetic, time zones, or NaN and signed-zero behaviour, because job.go only stores them.
- The declaration of `STATUS_CREATED`, the other status values and any transition rules are not part of this model.
- The queue's scheduling, the `Queue.keeper()` purge, and concurrent access to a job are not part of this model.
