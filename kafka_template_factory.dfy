/**
 * DynamicKafkaTemplateFactory: one Kafka producer template per bootstrap
 * server string, built on first use and cached under the trimmed string.
 * A template is an object holding the producer configuration it was built
 * with; the Kafka client behind it is not modelled.
 */
module DynamicKafkaTemplateFactory {
  import opened JavaLang

  const STRING_SERIALIZER: string := "org.apache.kafka.common.serialization.StringSerializer"
  const ACKS_ALL: string := "all"
  const MAX_IN_FLIGHT: int := 5

  /** The producer configuration of one template. */
  datatype ProducerProps = ProducerProps(
    bootstrapServers: string,
    keySerializer: string,
    valueSerializer: string,
    acks: string,
    enableIdempotence: bool,
    retries: int,
    maxInFlightRequestsPerConnection: int)

  /**
   * The configuration `computeIfAbsent` builds for a cache key: the key as
   * bootstrap servers, String serializers, acknowledgement by all replicas,
   * idempotence on, unbounded retries and five requests in flight.
   */
  function TemplateProps(bootstrapServers: string): (p: ProducerProps)
    ensures p.bootstrapServers == bootstrapServers
    ensures p.keySerializer == STRING_SERIALIZER && p.valueSerializer == STRING_SERIALIZER
    ensures p.acks == "all" && p.enableIdempotence && p.retries == INT_MAX && p.maxInFlightRequestsPerConnection == 5
  {
    ProducerProps(bootstrapServers, STRING_SERIALIZER, STRING_SERIALIZER, ACKS_ALL, true, INT_MAX, MAX_IN_FLIGHT)
  }

  /** The cache key `getTemplate` computes: a null or blank string is refused, any other is trimmed. */
  function TemplateKey(bootstrapServers: Option<string>): (r: Result<string>)
    ensures r.Err? <==> bootstrapServers.None? || IsBlank(bootstrapServers.value)
    ensures r.Err? ==> r.error == IllegalArgument
    ensures r.Ok? ==> r.value == Trim(bootstrapServers.value)
  {
    if bootstrapServers.None? || IsBlank(bootstrapServers.value) then Err(IllegalArgument)
    else Ok(Trim(bootstrapServers.value))
  }

  /**
   * The key as evidently intended: a string that trims to nothing is
   * refused as well, so no template is built for an empty server list.
   * It agrees with `TemplateKey` on every other string.
   */
  function CheckedTemplateKey(bootstrapServers: Option<string>): (r: Result<string>)
    ensures r.Ok? ==> r.value != "" && r == TemplateKey(bootstrapServers)
    ensures r.Err? ==> r.error == IllegalArgument && (TemplateKey(bootstrapServers).Ok? ==> TemplateKey(bootstrapServers).value == "")
  {
    match TemplateKey(bootstrapServers)
    case Ok(k) => if k == "" then Err(IllegalArgument) else Ok(k)
    case Err(e) => Err(e)
  }

  /** A producer template. */
  class KafkaTemplate {
    const props: ProducerProps

    constructor (props: ProducerProps)
      ensures this.props == props
    {
      this.props := props;
    }
  }

  class Factory {
    var cache: map<string, KafkaTemplate>

    /** Every cached template was built for the key it is cached under. */
    ghost predicate Valid()
      reads this
    {
      forall k | k in cache :: cache[k].props == TemplateProps(k)
    }

    constructor ()
      ensures Valid() && cache == map[]
    {
      cache := map[];
    }

    /**
     * `getTemplate`: a string refused for its key is refused with
     * IllegalArgumentException and nothing is cached. Otherwise the
     * template cached under the trimmed string is returned, and one is
     * built and cached when there is none yet; the cache only grows.
     * A string of control characters is not blank, so it passes the
     * guard and is cached under the empty key.
     */
    method GetTemplate(bootstrapServers: Option<string>) returns (r: Result<KafkaTemplate>)
      requires Valid()
      modifies this
      ensures Valid()
      ensures TemplateKey(bootstrapServers).Err? ==> r == Err(IllegalArgument) && cache == old(cache)
      ensures TemplateKey(bootstrapServers).Ok? ==>
        var k := Trim(bootstrapServers.value);
        r.Ok? && k in cache && cache[k] == r.value && r.value.props == TemplateProps(k)
        && (k in old(cache) ==> cache == old(cache))
        && (k !in old(cache) ==> cache == old(cache)[k := r.value] && fresh(r.value))
    {
      var checked := TemplateKey(bootstrapServers);
      if checked.Err? {
        return Err(IllegalArgument);
      }
      var key := checked.value;
      if key in cache {
        return Ok(cache[key]);
      }
      var template := new KafkaTemplate(TemplateProps(key));
      cache := cache[key := template];
      r := Ok(template);
    }
  }

  /** Leading characters that `trim` removes do not change the cache key. */
  lemma {:induction false} LeadingPaddingSharesKey(padding: string, bootstrapServers: string)
    requires forall i | 0 <= i < |padding| :: IsTrimmable(padding[i])
    ensures Trim(padding + bootstrapServers) == Trim(bootstrapServers)
    decreases |padding|
  {
    if padding != [] {
      assert (padding + bootstrapServers)[1..] == padding[1..] + bootstrapServers;
      assert TrimLeft(padding + bootstrapServers) == TrimLeft(padding[1..] + bootstrapServers);
      LeadingPaddingSharesKey(padding[1..], bootstrapServers);
    } else {
      assert padding + bootstrapServers == bootstrapServers;
    }
  }

  /**
   * The guard and the key disagree on control characters: a string of one
   * NUL is not blank, so `getTemplate` as written passes it and trims it
   * to the empty key; the checked key refuses it.
   */
  lemma ControlCharacterPassesGuard()
    ensures TemplateKey(Some("\0")) == Ok("") && CheckedTemplateKey(Some("\0")) == Err(IllegalArgument)
  {
    assert !IsJavaWhitespace("\0"[0]);
    assert TrimLeft("\0") == TrimLeft("\0"[1..]);
  }
}
