/**
 * `RedeliveryRetryPipeSpecification<TMessage>`: configures redelivery-based retry for a
 * consume pipe. It holds a retry policy factory, refuses to validate without one, and adds
 * one redelivery retry filter to the pipe it is applied to.
 */
module RedeliveryRetry {
  import opened Common

  /** A `RetryPolicyFactory` delegate, by identity; the policy engine it feeds is not part of this model. */
  datatype RetryPolicyFactory = RetryPolicyFactory(id: nat)

  /** The exception filter that `ExceptionSpecification` builds from its handle/ignore configuration. */
  datatype ExceptionFilter = ExceptionFilter(id: nat)

  /** `IRetryPolicy`: what the factory returns for the filter. */
  datatype RetryPolicy = RetryPolicy(factory: RetryPolicyFactory, filter: ExceptionFilter)

  /** A consume context: a plain one, the redelivery retry context that `Factory` creates, or some other retry context. */
  datatype ConsumeContext =
    | PlainContext(id: nat)
    | RedeliveryRetryConsumeContext(inner: ConsumeContext, policy: RetryPolicy)
    | OtherRetryConsumeContext(id: nat)

  /** `context as RetryConsumeContext<TMessage>` succeeds. */
  predicate IsRetryContext(c: ConsumeContext) {
    c.RedeliveryRetryConsumeContext? || c.OtherRetryConsumeContext?
  }

  /** `Factory`: a retry context is used as it is; any other context is wrapped with the policy. */
  function Factory(context: ConsumeContext, retryPolicy: RetryPolicy): (r: ConsumeContext)
    ensures IsRetryContext(r)
    ensures IsRetryContext(context) ==> r == context
    ensures !IsRetryContext(context) ==> r == RedeliveryRetryConsumeContext(context, retryPolicy)
  {
    if IsRetryContext(context) then context else RedeliveryRetryConsumeContext(context, retryPolicy)
  }

  /** Wrapping twice is wrapping once: the second call finds a retry context and keeps it, whatever its policy. */
  lemma FactoryIdempotent(context: ConsumeContext, p: RetryPolicy, q: RetryPolicy)
    ensures Factory(Factory(context, p), q) == Factory(context, p)
  {
  }

  datatype ValidationResult = Failure(key: string, message: string)

  /** A `RedeliveryRetryFilter<TMessage>`: its `ConsumeContextRetryPolicy` (policy and context factory) and the retry observers. */
  datatype PipeFilter = RedeliveryRetryFilter(policy: RetryPolicy, observers: nat)

  /** `IPipeBuilder<ConsumeContext<TMessage>>`, by the filters added to it. */
  class PipeBuilder {
    var filters: seq<PipeFilter>

    constructor ()
      ensures filters == []
    {
      filters := [];
    }

    method AddFilter(filter: PipeFilter)
      modifies this
      ensures filters == old(filters) + [filter]
    {
      filters := filters + [filter];
    }
  }

  /** Invoking the null `_policyFactory` delegate. */
  datatype NullReferenceException = NullReferenceException

  class RedeliveryRetryPipeSpecification {
    /** `_observers`, by identity. */
    const observers: nat
    /** `Filter`, from the exception specification. */
    const filter: ExceptionFilter
    var policyFactory: Option<RetryPolicyFactory>

    constructor (observers: nat, filter: ExceptionFilter)
      ensures this.observers == observers && this.filter == filter && policyFactory.None?
    {
      this.observers := observers;
      this.filter := filter;
      policyFactory := None;
    }

    /** `Validate()`: one failure, on `RetryPolicy`, exactly when no factory is set. */
    function Validate(): (results: seq<ValidationResult>)
      reads this
      ensures |results| <= 1
      ensures results == [] <==> policyFactory.Some?
      ensures forall v :: v in results ==> v == Failure("RetryPolicy", "must not be null")
    {
      if policyFactory.None? then [Failure("RetryPolicy", "must not be null")] else []
    }

    /** `SetRetryPolicy(factory)`: the factory replaces whatever was set (null included). */
    method SetRetryPolicy(factory: Option<RetryPolicyFactory>)
      modifies this`policyFactory
      ensures policyFactory == factory
    {
      policyFactory := factory;
    }

    /**
     * `Apply(builder)`: build the policy from the factory and the exception filter, and add
     * one redelivery retry filter. Without a factory the delegate call fails and nothing is added.
     */
    method Apply(builder: PipeBuilder) returns (r: Result<(), NullReferenceException>)
      modifies builder
      ensures policyFactory.None? ==> r == Err(NullReferenceException) && builder.filters == old(builder.filters)
      ensures policyFactory.Some? ==>
        r == Ok(()) && builder.filters == old(builder.filters) + [RedeliveryRetryFilter(RetryPolicy(policyFactory.value, filter), observers)]
    {
      if policyFactory.None? {
        return Err(NullReferenceException);
      }
      var retryPolicy := RetryPolicy(policyFactory.value, filter);
      builder.AddFilter(RedeliveryRetryFilter(retryPolicy, observers));
      return Ok(());
    }
  }

  /** The last policy set wins, and a specification with a policy validates and applies. */
  method LastPolicyWins(spec: RedeliveryRetryPipeSpecification, builder: PipeBuilder, first: RetryPolicyFactory, second: RetryPolicyFactory)
    modifies spec, builder
    ensures spec.policyFactory == Some(second) && spec.Validate() == []
    ensures builder.filters == old(builder.filters) + [RedeliveryRetryFilter(RetryPolicy(second, spec.filter), spec.observers)]
  {
    spec.SetRetryPolicy(Some(first));
    spec.SetRetryPolicy(Some(second));
    var r := spec.Apply(builder);
    assert r.Ok?;
  }
}
