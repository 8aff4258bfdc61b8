/** What `Config.Merge` promises, stated once per field and proved about the
    model: the per-field rule in both directions, the identities, idempotence
    and associativity of layering, and what layering onto the defaults gives. */
module AwsConfigLaws {
  import opened Wrappers
  import opened AwsConfig

  /** Two configurations that agree on every field are the same configuration. */
  lemma Extensionality(a: Config, b: Config)
    requires forall f: Field :: Get(a, f) == Get(b, f)
    ensures a == b
  {
    assert Get(a, CredentialsField) == Get(b, CredentialsField);
    assert Get(a, EndpointField) == Get(b, EndpointField);
    assert Get(a, RegionField) == Get(b, RegionField);
    assert Get(a, DisableSSLField) == Get(b, DisableSSLField);
    assert Get(a, HttpClientField) == Get(b, HttpClientField);
    assert Get(a, LogHTTPBodyField) == Get(b, LogHTTPBodyField);
    assert Get(a, LogLevelField) == Get(b, LogLevelField);
    assert Get(a, LoggerField) == Get(b, LoggerField);
    assert Get(a, MaxRetriesField) == Get(b, MaxRetriesField);
    assert Get(a, DisableParamValidationField) == Get(b, DisableParamValidationField);
    assert Get(a, DisableComputeChecksumsField) == Get(b, DisableComputeChecksumsField);
    assert Get(a, S3ForcePathStyleField) == Get(b, S3ForcePathStyleField);
  }

  /** Each field of a merge with an override record is the override's field
      when that is non-nil and the receiver's field when it is nil. */
  lemma MergedAt(c: Config, n: Config, f: Field)
    ensures Get(Merged(c, Some(n)), f) == if IsSet(Get(n, f)) then Get(n, f) else Get(c, f)
  {
  }

  /** The per-field rule determines a merge completely: any record whose
      every field obeys it is `Merged(c, Some(n))`. */
  lemma MergedUnique(c: Config, n: Config, r: Config)
    requires forall f: Field :: Get(r, f) == if IsSet(Get(n, f)) then Get(n, f) else Get(c, f)
    ensures r == Merged(c, Some(n))
  {
    forall f: Field ensures Get(r, f) == Get(Merged(c, Some(n)), f) {
      MergedAt(c, n, f);
    }
    Extensionality(r, Merged(c, Some(n)));
  }

  /** A non-nil override field replaces the receiver's. */
  lemma PresentOverrideWins(c: Config, n: Config, f: Field)
    requires IsSet(Get(n, f))
    ensures Get(Merged(c, Some(n)), f) == Get(n, f)
  {
  }

  /** A nil override field keeps the receiver's, whatever it is. */
  lemma AbsentOverrideKeeps(c: Config, n: Config, f: Field)
    requires !IsSet(Get(n, f))
    ensures Get(Merged(c, Some(n)), f) == Get(c, f)
  {
  }

  /** Presence, not zero-ness, decides: `false`, `0` and `""` still replace
      the receiver's value, so a set field can be cleared by a merge. */
  lemma FalsyOverrideWins(c: Config, n: Config, f: Field)
    requires IsFalsy(Get(n, f))
    ensures Get(Merged(c, Some(n)), f) == Get(n, f)
  {
  }

  /** The zero record `Config{}` is an identity on both sides: merging it in
      is the same as merging nil, and merging onto it yields the override. */
  lemma MergeEmptyIsIdentity(c: Config)
    ensures Merged(c, Some(Empty())) == Merged(c, None)
    ensures Merged(Empty(), Some(c)) == c
  {
  }

  /** Merging the same override twice changes nothing the first merge did not. */
  lemma MergeIdempotent(c: Config, newcfg: Option<Config>)
    ensures Merged(Merged(c, newcfg), newcfg) == Merged(c, newcfg)
  {
  }

  /** Layering `x` then `y` onto `c` is layering onto `c` the result of
      layering `y` onto `x`. */
  lemma MergeAssociative(c: Config, x: Config, y: Config)
    ensures Merged(Merged(c, Some(x)), Some(y)) == Merged(c, Some(Merged(x, Some(y))))
  {
  }

  /** Every field of the defaults is set, so every field of a configuration
      layered onto the defaults is set too, whatever the override holds. */
  lemma DefaultMergeFullyPresent(region: string, chain: CredentialsRef, client: HttpClientRef,
                                 stdout: WriterRef, newcfg: Option<Config>)
    ensures forall f: Field :: IsSet(Get(Merged(DefaultConfig(region, chain, client, stdout), newcfg), f))
  {
    var d := DefaultConfig(region, chain, client, stdout);
    if newcfg.Some? {
      forall f: Field ensures IsSet(Get(Merged(d, newcfg), f)) {
        MergedAt(d, newcfg.value, f);
      }
    }
  }
}
