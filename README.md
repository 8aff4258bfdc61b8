# AWS SDK for Go: the `aws.Config` record

This project models the service configuration record of the SDK's `aws`
package (`aws/config.go`): the twelve options a service client is built
from, the shallow `Copy`, the `Merge` that layers an override record onto a
base record, and the package's `DefaultConfig` value. Every field of the Go
struct is a pointer, an interface or nil; the model turns each into an
`Option`, with `None` for nil. The three fields that point at objects of other
packages (`*credentials.Credentials`, `*http.Client`, `io.Writer`) become
opaque references (`CredentialsRef`, `HttpClientRef`, `WriterRef`) that carry
only an identity, so sharing the object is sharing the reference.

Files:

- `wrappers.dfy` holds module `Wrappers`: `Option` and `Layer`, the "override when non-nil" choice for one optional value.
- `config.dfy` holds module `AwsConfig`: the record, a field-indexed view of it (`Field`, `Get`, `IsSet`), `Copy`, the pure `Merged`, the imperative `Merge`, and `DefaultConfig`.
- `config_laws.dfy` holds module `AwsConfigLaws`: the properties of merging, proved about `Merged`.

`Merge` follows the Go code statement by statement. It starts from a copy of
the receiver and returns that copy when the override is nil. Otherwise it
runs twelve `if n.X != nil { cfg.X = n.X }` steps and returns the result.
The local copy `cfg` is held as twelve local variables, one per field, and
put back together at the end. Twelve successive datatype updates
`cfg := cfg.(x := …)` of a single variable would mirror `cfg.X = …` just as
well, but that proof is too expensive for the solver.
`Merge` is proved equal to `Merged`, a pure function that builds the
same record with one datatype update. Every law is proved about `Merged`.
`Merge` has no `modifies` clause and takes both records by value, so it
cannot change either input. In Go the receiver is likewise taken by value and
`newcfg` is only read.

The test for every field is nil-ness, not zero-ness. The doc comment above
`Merge` (aws/config.go:128-132) says that zero values cannot be merged in and
that a bool cannot be cleared by `Merge`. The code only checks for nil
(aws/config.go:139-185). So a non-nil `Bool(false)`, `Int(0)` or `String("")`
does replace the receiver's value. The model follows the code, and
`FalsyOverrideWins` states it.

## Model

| member | source | states |
|---|---|---|
| `AwsConfig.Copy` | aws/config.go:122-126 | the copy agrees with the receiver on every field; so the credentials, HTTP client and logger references are the receiver's own (shared, not cloned) |
| `AwsConfig.Empty` | aws/config.go:52-120 | the zero `Config{}` has every one of the twelve fields nil |
| `AwsConfig.Merged` | aws/config.go:133-188 | the pure merge: a nil override gives the receiver itself; for a non-nil override each field follows the per-field rule (see `MergedAt`, `MergedUnique`) |
| `AwsConfig.Merge` | aws/config.go:133-188 | the step-by-step merge (copy the receiver, return it for a nil override, otherwise overwrite each field whose override is non-nil) yields exactly `Merged(c, newcfg)`; it changes no input |
| `AwsConfigLaws.MergedAt` | aws/config.go:139-185 | for every field, the merged value is the override's when the override's field is non-nil, and the receiver's otherwise |
| `AwsConfigLaws.MergedUnique` | aws/config.go:139-187 | any record whose every field is the override's when non-nil and the receiver's otherwise equals the merge, so the per-field rule characterises it completely |
| `AwsConfigLaws.PresentOverrideWins` | aws/config.go:139-185 | a non-nil override field becomes the merged field |
| `AwsConfigLaws.AbsentOverrideKeeps` | aws/config.go:134-187 | a nil override field leaves the receiver's value, so nothing the override does not set changes |
| `AwsConfigLaws.FalsyOverrideWins` | aws/config.go:139-185 | a present `""`, `false` or `0` still replaces the receiver's value, so a merge can clear a field set in the receiver |
| `AwsConfigLaws.MergeEmptyIsIdentity` | aws/config.go:133-188 | merging the all-nil record equals merging nil; merging any record onto the all-nil record yields that record |
| `AwsConfigLaws.MergeIdempotent` | aws/config.go:133-188 | merging the same override twice equals merging it once, for a nil or a non-nil override |
| `AwsConfigLaws.MergeAssociative` | aws/config.go:133-188 | `c.Merge(x).Merge(y)` equals `c.Merge(x.Merge(y))` |
| `AwsConfigLaws.Extensionality` | aws/config.go:52-120 | two records that agree on all twelve fields are equal |
| `AwsConfig.DefaultConfig` | aws/config.go:24-48 | every field of the defaults is set: region is the given AWS_REGION value, credentials, HTTP client and logger are the given references, endpoint is `""`, log level is 0, max retries is `DefaultRetries` (-1), and all five bool fields are false |
| `AwsConfigLaws.DefaultMergeFullyPresent` | aws/config.go:35-48 | every field of `DefaultConfig` merged with any override (nil or not) is set |

## Left out

- `DefaultChainCredentials` and its providers (aws/config.go:12-22) call into the `credentials` package, which is not part of this model. They read the process environment, files and the EC2 metadata service. `DefaultConfig` takes the resulting credentials as an opaque `CredentialsRef` parameter.
- `os.Getenv("AWS_REGION")` (aws/config.go:38) is I/O. `DefaultConfig` takes its value as the `region` parameter, using the empty string when the variable is unset.
- `http.DefaultClient` and `os.Stdout` (aws/config.go:40, 43) are library objects. They are passed in as opaque references, and nothing about their behaviour is modelled.
- The global mutability of `DefaultConfig` (aws/config.go:32-34) is left out. So is the convention that it is changed only before clients are built. Both are process-wide state and concurrency etiquette, and neither is a computation. The model treats the defaults as a value.
- Aliasing through the scalar pointers is left out. In Go, `Copy` and `Merge` copy the `*string`, `*bool` and `*int` pointers themselves, so writing through `*copy.Region` would also change the original. The model holds those fields as values, so it captures only reassignment of a field, not writes through a shared pointer. The same applies to the three reference fields. The model records only their identity.
- `Merge` returns `*Config`, a pointer to a fresh record. The model returns the record itself. A caller cannot observe any difference, because the pointer is never shared with either input.
- Rules that are documented but not enforced are not modelled either, because `config.go` checks none of them. Examples are `LogHTTPBody` needing a non-zero `LogLevel` (aws/config.go:85-86), `Region` being required (aws/config.go:65-68) and endpoint URL syntax.
