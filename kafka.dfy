/**
 * Defaulting of a KafkaChannel of eventing-kafka's `messaging/v1beta1` API.
 * `KafkaChannel.SetDefaults` pins the channel to the stored version of the
 * subscribable duck type, through an annotation it adds only when absent, and
 * then defaults the spec; `KafkaChannelSpec.SetDefaults` replaces a zero
 * partition count or replication factor by the configured default. Both update
 * the receiver in place.
 */
module KafkaChannelDefaults {
  import opened Wrappers

  newtype int32 = x: int | -0x8000_0000 <= x < 0x8000_0000
  newtype int16 = x: int | -0x8000 <= x < 0x8000

  /** `messaging.SubscribableDuckVersionAnnotation` of Knative eventing. */
  const SubscribableDuckVersionAnnotation := "messaging.knative.dev/subscribable"

  /** The stored version of the subscribable duck type the channel is pinned to. */
  const StoredDuckVersion := "v1"

  /** The two counts of a channel spec that defaulting may change. */
  datatype Counts = Counts(numPartitions: int32, replicationFactor: int16)

  /** The counts after defaulting: a zero count takes its default, a nonzero one stays. */
  function DefaultedCounts(c: Counts, defaultNumPartitions: int32, defaultReplicationFactor: int16): (r: Counts)
    ensures c.numPartitions != 0 ==> r.numPartitions == c.numPartitions
    ensures c.numPartitions == 0 ==> r.numPartitions == defaultNumPartitions
    ensures c.replicationFactor != 0 ==> r.replicationFactor == c.replicationFactor
    ensures c.replicationFactor == 0 ==> r.replicationFactor == defaultReplicationFactor
  {
    Counts(
      if c.numPartitions == 0 then defaultNumPartitions else c.numPartitions,
      if c.replicationFactor == 0 then defaultReplicationFactor else c.replicationFactor)
  }

  /**
   * The annotations after defaulting, from the channel's annotations (None for
   * a nil map): every existing entry is kept, including an existing duck-version
   * annotation whatever its value, and the duck-version annotation is added with
   * the stored version when it is absent. No other key appears.
   */
  function DefaultedAnnotations(annotations: Option<map<string, string>>): (r: map<string, string>)
    ensures SubscribableDuckVersionAnnotation in r
    ensures forall k :: k in r <==> k == SubscribableDuckVersionAnnotation || (annotations.Some? && k in annotations.value)
    ensures annotations.Some? ==> forall k :: k in annotations.value ==> r[k] == annotations.value[k]
    ensures (annotations.None? || SubscribableDuckVersionAnnotation !in annotations.value) ==>
              r[SubscribableDuckVersionAnnotation] == StoredDuckVersion
  {
    var m := if annotations.None? then map[] else annotations.value;
    if SubscribableDuckVersionAnnotation in m then m else m[SubscribableDuckVersionAnnotation := StoredDuckVersion]
  }

  /** The spec of a KafkaChannel (`KafkaChannelSpec`). */
  class KafkaChannelSpec {
    var numPartitions: int32
    var replicationFactor: int16
    var retentionDuration: string

    constructor (numPartitions: int32, replicationFactor: int16, retentionDuration: string)
      ensures this.numPartitions == numPartitions
      ensures this.replicationFactor == replicationFactor
      ensures this.retentionDuration == retentionDuration
    {
      this.numPartitions := numPartitions;
      this.replicationFactor := replicationFactor;
      this.retentionDuration := retentionDuration;
    }

    function Value(): Counts
      reads this
    {
      Counts(numPartitions, replicationFactor)
    }

    /** `KafkaChannelSpec.SetDefaults`: zero counts take the configured defaults. */
    method SetDefaults(defaultNumPartitions: int32, defaultReplicationFactor: int16)
      modifies this
      ensures Value() == DefaultedCounts(old(Value()), defaultNumPartitions, defaultReplicationFactor)
      ensures retentionDuration == old(retentionDuration)
    {
      if numPartitions == 0 {
        numPartitions := defaultNumPartitions;
      }
      if replicationFactor == 0 {
        replicationFactor := defaultReplicationFactor;
      }
    }
  }

  /** A KafkaChannel: its annotations (None for a nil map) and its spec. */
  class KafkaChannel {
    var annotations: Option<map<string, string>>
    const spec: KafkaChannelSpec

    constructor (annotations: Option<map<string, string>>, spec: KafkaChannelSpec)
      ensures this.annotations == annotations && this.spec == spec
    {
      this.annotations := annotations;
      this.spec := spec;
    }

    /** `KafkaChannel.SetDefaults`: the duck-version annotation, then the spec's counts. */
    method SetDefaults(defaultNumPartitions: int32, defaultReplicationFactor: int16)
      modifies this, spec
      ensures annotations == Some(DefaultedAnnotations(old(annotations)))
      ensures spec.Value() == DefaultedCounts(old(spec.Value()), defaultNumPartitions, defaultReplicationFactor)
      ensures spec.retentionDuration == old(spec.retentionDuration)
    {
      if annotations.None? {
        annotations := Some(map[]);
      }
      if SubscribableDuckVersionAnnotation !in annotations.value {
        annotations := Some(annotations.value[SubscribableDuckVersionAnnotation := StoredDuckVersion]);
      }
      spec.SetDefaults(defaultNumPartitions, defaultReplicationFactor);
    }
  }

  // ---------------------------------------------------------------------------
  // Properties

  /** Defaulting the counts twice gives what defaulting them once gives. */
  lemma DefaultedCountsIdempotent(c: Counts, dp: int32, dr: int16)
    ensures DefaultedCounts(DefaultedCounts(c, dp, dr), dp, dr) == DefaultedCounts(c, dp, dr)
  {
  }

  /** Counts are left alone exactly when neither is a zero that a nonzero default would replace. */
  lemma DefaultedCountsFixpoint(c: Counts, dp: int32, dr: int16)
    ensures DefaultedCounts(c, dp, dr) == c <==>
      (c.numPartitions != 0 || dp == 0) && (c.replicationFactor != 0 || dr == 0)
  {
  }

  /** With nonzero defaults, a defaulted spec never has a zero count. */
  lemma DefaultedCountsNonzero(c: Counts, dp: int32, dr: int16)
    requires dp != 0 && dr != 0
    ensures DefaultedCounts(c, dp, dr).numPartitions != 0
    ensures DefaultedCounts(c, dp, dr).replicationFactor != 0
  {
  }

  /** Defaulting the annotations of a defaulted channel changes nothing. */
  lemma DefaultedAnnotationsIdempotent(annotations: Option<map<string, string>>)
    ensures DefaultedAnnotations(Some(DefaultedAnnotations(annotations))) == DefaultedAnnotations(annotations)
  {
  }

  /** A nil annotations map becomes a map holding only the duck-version annotation. */
  lemma NilAnnotationsDefaulted()
    ensures DefaultedAnnotations(None) == map[SubscribableDuckVersionAnnotation := StoredDuckVersion]
  {
  }

  /** An existing duck-version annotation is kept whatever its value, the empty string included. */
  lemma ExistingDuckVersionKept(annotations: map<string, string>)
    requires SubscribableDuckVersionAnnotation in annotations
    ensures DefaultedAnnotations(Some(annotations)) == annotations
  {
  }

  /** Running KafkaChannel.SetDefaults twice leaves the channel as running it once does. */
  method SetDefaultsTwice(c: KafkaChannel, dp: int32, dr: int16)
    modifies c, c.spec
    ensures c.annotations == Some(DefaultedAnnotations(old(c.annotations)))
    ensures c.spec.Value() == DefaultedCounts(old(c.spec.Value()), dp, dr)
  {
    c.SetDefaults(dp, dr);
    c.SetDefaults(dp, dr);
    DefaultedAnnotationsIdempotent(old(c.annotations));
    DefaultedCountsIdempotent(old(c.spec.Value()), dp, dr);
  }
}
