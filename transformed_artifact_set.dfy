/**
 * The entry point of a transformed artifact set: the artifact set that, when
 * visited, applies a transformation to the artifacts of the set it wraps (its
 * delegate).
 *
 * Starting a visit first asks the consumer's listener what kind of visit it
 * wants. A consumer that wants no contents gets a completion that only ends
 * the visit of this set's source. Any other consumer causes a new, empty
 * results map to be allocated and the delegate to be visited through a
 * transforming listener that holds that map; the completion returned wraps the
 * delegate's completion, the target attributes and that same map.
 *
 * The collaborators (the consumer's listener, the delegate, the visitor of a
 * completion) are small classes whose calls are recorded, in order, in one
 * shared CallLog; the contracts of the set's methods say exactly which calls
 * they make. What the transforming listener, the delegate and the transform
 * completion do with the results map and the operation queue is not part of
 * this model.
 */
module ArtifactTransforms {

  /** What a listener wants from a visit; NoContents: only the structure, no files. */
  datatype VisitType = Visit | NoContents

  /** The source of a file collection, as reported to listeners and visitors. */
  datatype VisitSource = VisitSource(id: nat)

  datatype ComponentIdentifier = ComponentIdentifier(id: string)

  datatype ArtifactIdentifier = ArtifactIdentifier(component: ComponentIdentifier, name: string)

  /** The attributes the transformed artifacts are produced as. */
  datatype Attributes = Attributes(entries: map<string, string>)

  /** The chain of transform steps, by name. */
  datatype Transformation = Transformation(steps: seq<string>)

  datatype TransformationResult = Succeeded(files: seq<string>) | Failed(error: string)

  /** The queue of build operations that a visit may submit work to. */
  datatype OperationQueue = OperationQueue(id: nat)

  datatype TransformationNodeRegistry = TransformationNodeRegistry(id: nat)

  /** The (not yet realized) completion that the delegate's own visit returns. */
  datatype DelegateCompletion = DelegateCompletion(id: nat)

  datatype Error = IllegalStateException

  datatype Outcome = Pass | Fail(error: Error)

  /** Resolves the extra inputs that the transforms of one component's artifacts need. */
  class DependenciesResolver {
    const component: ComponentIdentifier

    constructor (component: ComponentIdentifier)
      ensures this.component == component
    {
      this.component := component;
    }
  }

  datatype DependenciesResolverFactory = DependenciesResolverFactory(id: nat) {
    /** A new resolver for the given component. */
    method Create(component: ComponentIdentifier) returns (resolver: DependenciesResolver)
      ensures fresh(resolver) && resolver.component == component
    {
      resolver := new DependenciesResolver(component);
    }
  }

  /** The map from artifact identity to transformation result that one visit fills. */
  class ResultsMap {
    var entries: map<ArtifactIdentifier, TransformationResult>

    constructor ()
      ensures entries == map[]
    {
      entries := map[];
    }
  }

  /** The listener handed to the delegate: what it is constructed from. */
  datatype TransformingListener = TransformingListener(
    transformation: Transformation,
    actions: OperationQueue,
    results: ResultsMap,
    resolver: DependenciesResolver,
    registry: TransformationNodeRegistry)

  /** A call made on a collaborator. */
  datatype Call =
    | PrepareForVisitCalled(source: VisitSource)
      /** The delegate's startVisit, with the contents of the listener's results map when it was called. */
    | StartVisitCalled(actions: OperationQueue, listener: TransformingListener,
                         resultsAtCall: map<ArtifactIdentifier, TransformationResult>,
                         returned: DelegateCompletion)
    | EndVisitCollectionCalled(source: VisitSource)

  /** The calls made on collaborators, in order. */
  class CallLog {
    var calls: seq<Call>

    constructor ()
      ensures calls == []
    {
      calls := [];
    }
  }

  /** The consumer's listener; `answer` is what its prepareForVisit replies. */
  class AsyncArtifactListener {
    const log: CallLog
    const answer: VisitSource -> VisitType

    constructor (log: CallLog, answer: VisitSource -> VisitType)
      ensures this.log == log && this.answer == answer
    {
      this.log := log;
      this.answer := answer;
    }

    method PrepareForVisit(source: VisitSource) returns (visitType: VisitType)
      modifies log
      ensures visitType == answer(source)
      ensures log.calls == old(log.calls) + [PrepareForVisitCalled(source)]
    {
      visitType := answer(source);
      log.calls := log.calls + [PrepareForVisitCalled(source)];
    }
  }

  /** The visitor that a completion is replayed to. */
  class StructureVisitor {
    const log: CallLog

    constructor (log: CallLog)
      ensures this.log == log
    {
      this.log := log;
    }

    method EndVisitCollection(source: VisitSource)
      modifies log
      ensures log.calls == old(log.calls) + [EndVisitCollectionCalled(source)]
    {
      log.calls := log.calls + [EndVisitCollectionCalled(source)];
    }
  }

  /** The visitor of local artifacts. */
  class LocalArtifactVisitor {
    var visited: seq<ArtifactIdentifier>
  }

  /**
   * The delegate artifact set. Its visit may write to the listener's results
   * map (through work it schedules); what it writes is left open.
   */
  class ResolvedArtifactSet {
    const log: CallLog

    constructor (log: CallLog)
      ensures this.log == log
    {
      this.log := log;
    }

    method StartVisit(actions: OperationQueue, listener: TransformingListener) returns (completion: DelegateCompletion)
      modifies log, listener.results
      ensures log.calls == old(log.calls) + [StartVisitCalled(actions, listener, old(listener.results.entries), completion)]
    {
      completion := DelegateCompletion(|log.calls|);
      log.calls := log.calls + [StartVisitCalled(actions, listener, listener.results.entries, completion)];
    }
  }

  /** What a transformed set's visit returns. */
  datatype Completion =
    | EndVisitOnly(source: VisitSource)
    | TransformCompletion(result: DelegateCompletion, attributes: Attributes, results: ResultsMap)
  {
    /** Replaying the no-contents completion ends the visit of its source and does nothing else. */
    method Visit(visitor: StructureVisitor)
      requires EndVisitOnly?
      modifies visitor.log
      ensures visitor.log.calls == old(visitor.log.calls) + [EndVisitCollectionCalled(source)]
    {
      visitor.EndVisitCollection(source);
    }
  }

  class TransformedArtifactSet {
    const delegate: ResolvedArtifactSet
    const attributes: Attributes
    const transformation: Transformation
    const transformationNodeRegistry: TransformationNodeRegistry
    const dependenciesResolver: DependenciesResolver
    /** The source the concrete kind of transformed set reports (getVisitSource). */
    const visitSource: VisitSource
    /** The component the set was constructed for; the set itself keeps only its resolver. */
    ghost const component: ComponentIdentifier

    constructor (
      componentIdentifier: ComponentIdentifier,
      delegate: ResolvedArtifactSet,
      target: Attributes,
      transformation: Transformation,
      dependenciesResolverFactory: DependenciesResolverFactory,
      transformationNodeRegistry: TransformationNodeRegistry,
      visitSource: VisitSource)
      ensures this.delegate == delegate && attributes == target && this.transformation == transformation
      ensures this.transformationNodeRegistry == transformationNodeRegistry && this.visitSource == visitSource
      ensures component == componentIdentifier
      ensures fresh(dependenciesResolver) && dependenciesResolver.component == componentIdentifier
      ensures Valid()
    {
      this.delegate := delegate;
      attributes := target;
      this.transformation := transformation;
      this.transformationNodeRegistry := transformationNodeRegistry;
      var resolver := dependenciesResolverFactory.Create(componentIdentifier);
      dependenciesResolver := resolver;
      this.visitSource := visitSource;
      component := componentIdentifier;
    }

    /** The set's invariant: its resolver is the one created for its component. */
    ghost predicate Valid() {
      dependenciesResolver.component == component
    }

    /** The resolver created at construction, for the component the set was constructed for. */
    function GetDependenciesResolver(): (resolver: DependenciesResolver)
      requires Valid()
      ensures resolver.component == component
      ensures resolver == dependenciesResolver
    {
      dependenciesResolver
    }

    /**
     * Asks the listener once what it wants, for this set's source. On
     * NoContents nothing else is called and the completion only ends the visit
     * of the source. Otherwise a new, empty results map is handed, inside a
     * transforming listener built from this set's transformation, queue,
     * resolver and registry, to exactly one visit of the delegate, and the
     * completion wraps the delegate's completion, the target attributes and
     * that same map.
     */
    method StartVisit(actions: OperationQueue, listener: AsyncArtifactListener) returns (completion: Completion)
      requires Valid() && delegate.log == listener.log
      modifies listener.log
      ensures listener.answer(visitSource) == NoContents ==>
        completion == EndVisitOnly(visitSource) &&
        listener.log.calls == old(listener.log.calls) + [PrepareForVisitCalled(visitSource)]
      ensures listener.answer(visitSource) != NoContents ==>
        completion.TransformCompletion? && fresh(completion.results) &&
        completion.attributes == attributes &&
        listener.log.calls == old(listener.log.calls) + [
          PrepareForVisitCalled(visitSource),
          StartVisitCalled(
            actions,
            TransformingListener(transformation, actions, completion.results, GetDependenciesResolver(), transformationNodeRegistry),
            map[],
            completion.result)]
    {
      var visitType := listener.PrepareForVisit(visitSource);
      if visitType == NoContents {
        return EndVisitOnly(visitSource);
      }
      var artifactResults := new ResultsMap();
      var result := delegate.StartVisit(
        actions,
        TransformingListener(transformation, actions, artifactResults, dependenciesResolver, transformationNodeRegistry));
      completion := TransformCompletion(result, attributes, artifactResults);
    }

    /** Listing the local artifacts of a transformed set is a misuse: it always fails and visits nothing. */
    method VisitLocalArtifacts(visitor: LocalArtifactVisitor) returns (outcome: Outcome)
      ensures outcome == Fail(IllegalStateException)
    {
      outcome := Fail(IllegalStateException);
    }
  }

  /**
   * Two visits of the same set that both want contents never share a results
   * map, and each map was empty when handed to the delegate.
   */
  method VisitTwice(artifacts: TransformedArtifactSet, actions: OperationQueue, listener: AsyncArtifactListener)
    returns (first: Completion, second: Completion)
    requires artifacts.Valid() && artifacts.delegate.log == listener.log
    requires listener.answer(artifacts.visitSource) != NoContents
    modifies listener.log
    ensures first.TransformCompletion? && second.TransformCompletion?
    ensures first.results != second.results
    ensures fresh(first.results) && fresh(second.results)
    ensures |listener.log.calls| == |old(listener.log.calls)| + 4
  {
    first := artifacts.StartVisit(actions, listener);
    second := artifacts.StartVisit(actions, listener);
  }
}
