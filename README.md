# Transformed artifact sets, module-metadata input files and the toolchain listing

A Dafny model of three small pieces of the Gradle build tool:

- `transformed_artifact_set.dfy` (module `ArtifactTransforms`): the entry point of
  a transformed artifact set (`AbstractTransformedArtifactSet`). Starting a visit asks
  the consumer's listener what kind of visit it wants, for the set's own visit source.
  On `NoContents` the set returns a completion whose only effect is to end the visit of
  that source. Otherwise it allocates a new, empty results map and starts one visit of
  the delegate set. The delegate gets a transforming listener built from the set's
  transformation, the operation queue, that map, the set's dependencies resolver and
  the node registry. The set returns a completion that wraps the delegate's completion,
  the target attributes and the same map. Listing local artifacts always fails with an
  illegal-state error. The resolver is created once, at construction, for the set's
  component. The collaborators are small classes that record each call made on them,
  in order, in one shared `CallLog`. The contracts of `StartVisit` give that log
  exactly: which calls, with which arguments, in which order.
- `generate_module_metadata.dfy` (module `ModuleMetadata`): the only-if condition of
  the module-metadata task (a component must be attached to the publication) and the
  task's input file set, `VariantFiles`. `ForEachArtifactOf` applies its action once
  per (usage, artifact) occurrence, usages in order and artifacts in order within a
  usage. `FilesOf` collects the artifacts' files into an insertion-ordered set (Java's
  `LinkedHashSet`), modelled as a sequence without duplicates. `GetFiles` is empty
  when no component is attached. `GetBuildDependencies` adds every artifact
  occurrence to a new dependency set. The display name is `"files of "` followed by
  the task path.
- `toolchain_query.dfy` (module `ToolchainQuery`): `query()` of the Java toolchain
  query service. Each installation `(name, path)` of the registry becomes the line
  `* name (path)`, and the lines are joined with `"\n"` in the registry's order. The
  registry is an input sequence, so the query cannot change it.

## Model

| member | source | states |
|---|---|---|
| `ArtifactTransforms.TransformedArtifactSet.constructor` | subprojects/dependency-management/src/main/java/org/gradle/api/internal/artifacts/transform/AbstractTransformedArtifactSet.java:41-54 | keeps delegate, target attributes, transformation and registry; creates a new resolver for the given component identifier and establishes `Valid()` |
| `ArtifactTransforms.DependenciesResolverFactory.Create` | subprojects/dependency-management/src/main/java/org/gradle/api/internal/artifacts/transform/AbstractTransformedArtifactSet.java:53 | the factory returns a new resolver for exactly the component it is given |
| `ArtifactTransforms.TransformedArtifactSet.GetDependenciesResolver` | subprojects/dependency-management/src/main/java/org/gradle/api/internal/artifacts/transform/AbstractTransformedArtifactSet.java:58-60 | returns the one resolver created at construction, which belongs to the set's component |
| `ArtifactTransforms.AsyncArtifactListener.PrepareForVisit` | subprojects/dependency-management/src/main/java/org/gradle/api/internal/artifacts/transform/AbstractTransformedArtifactSet.java:64 | the consumer's answer for a source, with the call recorded in the log |
| `ArtifactTransforms.TransformedArtifactSet.StartVisit` | subprojects/dependency-management/src/main/java/org/gradle/api/internal/artifacts/transform/AbstractTransformedArtifactSet.java:62-71 | `prepareForVisit` is called first and once, with the set's visit source. On `NoContents` nothing else is called and the result is the end-only completion. Otherwise exactly one delegate visit follows, with a transforming listener that holds this set's transformation, queue, resolver and registry and a new map that is empty when the delegate gets it. The result wraps the delegate's completion, the target attributes and that same map |
| `ArtifactTransforms.ResolvedArtifactSet.StartVisit` | subprojects/dependency-management/src/main/java/org/gradle/api/internal/artifacts/transform/AbstractTransformedArtifactSet.java:69 | the delegate's visit records its queue, its listener and the results map's contents at the call, and returns a completion; it may change the results map |
| `ArtifactTransforms.Completion.Visit` | subprojects/dependency-management/src/main/java/org/gradle/api/internal/artifacts/transform/AbstractTransformedArtifactSet.java:66 | replaying the no-contents completion makes exactly one call, `endVisitCollection` of the set's source |
| `ArtifactTransforms.VisitTwice` | subprojects/dependency-management/src/main/java/org/gradle/api/internal/artifacts/transform/AbstractTransformedArtifactSet.java:68 | two visits that want contents get two different new results maps: no map is shared between visits |
| `ArtifactTransforms.TransformedArtifactSet.VisitLocalArtifacts` | subprojects/dependency-management/src/main/java/org/gradle/api/internal/artifacts/transform/AbstractTransformedArtifactSet.java:73-77 | always fails with an illegal-state error; it has no frame to change, so it visits nothing |
| `ModuleMetadata.GenerateModuleMetadata.HasAttachedComponent` | subprojects/publish/src/main/java/org/gradle/api/publish/tasks/GenerateModuleMetadata.java:87-98 | the task's only-if condition is false exactly when the publication has no component |
| `ModuleMetadata.VariantFiles.ForEachArtifactOf` | subprojects/publish/src/main/java/org/gradle/api/publish/tasks/GenerateModuleMetadata.java:224-230 | the action is applied to the artifacts of all usages, usages in order and artifacts in order, once per occurrence, as many times as there are occurrences |
| `ModuleMetadata.AllArtifactsLength` | subprojects/publish/src/main/java/org/gradle/api/publish/tasks/GenerateModuleMetadata.java:225-226 | the number of applications is the sum of the usages' artifact counts |
| `ModuleMetadata.AllArtifactsAt` | subprojects/publish/src/main/java/org/gradle/api/publish/tasks/GenerateModuleMetadata.java:225-227 | artifact `j` of usage `i` is applied at position (artifacts of usages before `i`) + `j`: each occurrence, repeated ones included, has its own application |
| `ModuleMetadata.AllArtifactsMembership` | subprojects/publish/src/main/java/org/gradle/api/publish/tasks/GenerateModuleMetadata.java:225-227 | an artifact is applied exactly when some usage lists it |
| `ModuleMetadata.LinkedSetOfElements` | subprojects/publish/src/main/java/org/gradle/api/publish/tasks/GenerateModuleMetadata.java:218-219 | an insertion-ordered set holds each added element once, and exactly the elements added |
| `ModuleMetadata.LinkedSetOfOrder` | subprojects/publish/src/main/java/org/gradle/api/publish/tasks/GenerateModuleMetadata.java:218-219 | an insertion-ordered set lists its elements in the order of their first addition |
| `ModuleMetadata.LinkedFiles` | subprojects/publish/src/main/java/org/gradle/api/publish/tasks/GenerateModuleMetadata.java:218-219 | the insertion-ordered set of the artifacts' files holds the file of every artifact and no other, each once, in first-occurrence order |
| `ModuleMetadata.VariantFiles.FilesOf` | subprojects/publish/src/main/java/org/gradle/api/publish/tasks/GenerateModuleMetadata.java:217-222 | the files of all artifacts of all usages, none missing and none extra, without duplicates, in first-occurrence order (usages in order, then artifacts) |
| `ModuleMetadata.VariantFiles.GetFiles` | subprojects/publish/src/main/java/org/gradle/api/publish/tasks/GenerateModuleMetadata.java:210-215 | empty when the publication has no component, otherwise the files of its component as in `FilesOf` |
| `ModuleMetadata.TaskDependency.Add` | subprojects/publish/src/main/java/org/gradle/api/publish/tasks/GenerateModuleMetadata.java:205 | each `add` is recorded after the earlier ones |
| `ModuleMetadata.VariantFiles.GetBuildDependencies` | subprojects/publish/src/main/java/org/gradle/api/publish/tasks/GenerateModuleMetadata.java:199-208 | a new dependency set; nothing added without a component, otherwise every artifact occurrence of every usage, in order |
| `ModuleMetadata.VariantFiles.GetDisplayName` | subprojects/publish/src/main/java/org/gradle/api/publish/tasks/GenerateModuleMetadata.java:232-236 | `"files of "` followed by exactly the task path |
| `ToolchainQuery.Line` | subprojects/platform-jvm/src/main/java/org/gradle/jvm/toolchain/JavaToolchainQueryService.java:34 | an installation's line is `"* "`, the name, `" ("`, the path and `")"`; it has no line break when the name and path have none |
| `ToolchainQuery.Query` | subprojects/platform-jvm/src/main/java/org/gradle/jvm/toolchain/JavaToolchainQueryService.java:32-35 | the listing is empty exactly when the registry is empty |
| `ToolchainQuery.QueryEnds` | subprojects/platform-jvm/src/main/java/org/gradle/jvm/toolchain/JavaToolchainQueryService.java:34 | a non-empty listing starts with the first installation's line and ends with the last one's: no leading or trailing separator |
| `ToolchainQuery.QueryConcat` | subprojects/platform-jvm/src/main/java/org/gradle/jvm/toolchain/JavaToolchainQueryService.java:34 | listing two registries in sequence is their listings joined by exactly one `"\n"`: the registry's order is kept |
| `ToolchainQuery.QueryLines` | subprojects/platform-jvm/src/main/java/org/gradle/jvm/toolchain/JavaToolchainQueryService.java:34 | when no name or path holds a line break, splitting the listing at `"\n"` gives back exactly the installations' lines in order (none for an empty registry) |
| `ToolchainQuery.LineCount` | subprojects/platform-jvm/src/main/java/org/gradle/jvm/toolchain/JavaToolchainQueryService.java:34 | under the same condition the listing has one line per installation, line `k` being installation `k`'s |

## Left out

- The listener's visit type is modelled as `Visit | NoContents`; `startVisit` only compares the answer with `NoContents`, so any other kind takes the same path as `Visit`.
- What the transforming listener, the transform completion, the operation queue and the delegate do is not part of this model (their classes are not part of it). That covers scheduling, at-most-once execution per artifact, and replaying results in order. The delegate's visit may change the results map; the model leaves open how.
- `ArtifactTransforms.Completion.Visit`: models only the no-contents completion; replaying a transform completion belongs to the transform completion, which is not part of this model.
- The results map is a plain sequential map; its concurrent behaviour is not modelled.
- `getVisitSource` is abstract in the source; the model gives the set a constant visit source chosen at construction.
- `ArtifactTransforms.TransformedArtifactSet.StartVisit` requires the listener and the delegate to share one call log. This is how the model observes call order; the source has no such requirement.
- The warning that `hasAttachedComponent` logs is not modelled; only its boolean result is.
- `ModuleMetadata.TaskDependency.Add`: records the `add` calls in order. How the real dependency set stores them is not part of this model.
- `forEachArtifactOf` takes an action as a callback. The model's `ForEachArtifactOf` returns the sequence of artifacts the action is applied to. `FilesOf` and `GetBuildDependencies` then apply their action to each, in that order.
- The task action `run` and `bufferedWriterFor` write the metadata file through a writer class that is not part of this model (file I/O).
- Task wiring is not modelled: property creation, `upToDateWhen`, the injected service getters, `getArtifacts` wrapping the file set into a file collection, and the publication getters.
- Message formatting of the toolchain line is modelled as plain concatenation: name and path are already-rendered text, inserted verbatim. Locale and number formatting do not arise for this pattern.
- Discovery of installations by the installation registry is not modelled; the registry is an input sequence.
