/**
 * The part of the module-metadata generation task that decides whether the
 * task runs and which files are its inputs.
 *
 * A publication may be attached to a software component. A component has
 * usages (its variants), and every usage has publish artifacts, each backed by
 * a file. The task runs only when a component is attached. Its input files
 * are the files of all artifacts of all usages, as an insertion-ordered set
 * (a Java LinkedHashSet): usages in order, artifacts in order within a usage,
 * and a file that was already added is not added again.
 */
module ModuleMetadata {

  /** A reference that may be null. */
  datatype Option<T> = None | Some(value: T)

  /** A file, by its path. */
  type File = string

  datatype PublishArtifact = PublishArtifact(name: string, file: File)

  /** One usage (variant) of a component and the artifacts it publishes. */
  datatype UsageContext = UsageContext(name: string, artifacts: seq<PublishArtifact>)

  datatype SoftwareComponent = SoftwareComponent(name: string, usages: seq<UsageContext>)

  /** A publication; `component` is None when no component is attached. */
  datatype Publication = Publication(displayName: string, component: Option<SoftwareComponent>)

  // ---------------------------------------------------------------------
  // Specification functions
  // ---------------------------------------------------------------------

  /** Every artifact of every usage: usages in order, artifacts in order within each usage. */
  function AllArtifacts(usages: seq<UsageContext>): seq<PublishArtifact>
    decreases |usages|
  {
    if usages == [] then []
    else AllArtifacts(usages[..|usages| - 1]) + usages[|usages| - 1].artifacts
  }

  /** The number of (usage, artifact) occurrences. */
  function ArtifactCount(usages: seq<UsageContext>): nat
    decreases |usages|
  {
    if usages == [] then 0
    else ArtifactCount(usages[..|usages| - 1]) + |usages[|usages| - 1].artifacts|
  }

  /** The file of each artifact, one per artifact, in order. */
  function FilesIn(artifacts: seq<PublishArtifact>): (r: seq<File>)
    ensures |r| == |artifacts|
    ensures forall k :: 0 <= k < |r| ==> r[k] == artifacts[k].file
    decreases |artifacts|
  {
    if artifacts == [] then []
    else FilesIn(artifacts[..|artifacts| - 1]) + [artifacts[|artifacts| - 1].file]
  }

  /** The iteration order of an insertion-ordered set after `x` has been added to `linked`. */
  function AddToLinkedSet<T(==)>(linked: seq<T>, x: T): seq<T> {
    if x in linked then linked else linked + [x]
  }

  /** The iteration order of an insertion-ordered set after the elements of `s` were added in order. */
  function LinkedSetOf<T(==)>(s: seq<T>): seq<T>
    decreases |s|
  {
    if s == [] then [] else AddToLinkedSet(LinkedSetOf(s[..|s| - 1]), s[|s| - 1])
  }

  predicate NoDuplicates<T(==)>(s: seq<T>) {
    forall i, j :: 0 <= i < j < |s| ==> s[i] != s[j]
  }

  /** Every element of `r` occurs in `s`, and `r` lists them by their first occurrence in `s`. */
  ghost predicate InFirstOccurrenceOrder<T>(r: seq<T>, s: seq<T>) {
    forall i, j :: 0 <= i < j < |r| ==> r[i] in s && r[j] in s && FirstIndex(s, r[i]) < FirstIndex(s, r[j])
  }

  /** The position of the first occurrence of `x` in `s`. */
  function FirstIndex<T(==)>(s: seq<T>, x: T): (k: nat)
    requires x in s
    ensures k < |s| && s[k] == x && x !in s[..k]
    decreases |s|
  {
    if s[0] == x then 0
    else
      var k := FirstIndex(s[1..], x);
      assert s[..k + 1] == [s[0]] + s[1..][..k];
      k + 1
  }

  // ---------------------------------------------------------------------
  // Properties of the specification functions
  // ---------------------------------------------------------------------

  /** The offset of usage `i`'s first artifact in AllArtifacts is the count of the artifacts before it. */
  lemma {:induction false} AllArtifactsLength(usages: seq<UsageContext>)
    ensures |AllArtifacts(usages)| == ArtifactCount(usages)
    decreases |usages|
  {
    if usages != [] {
      AllArtifactsLength(usages[..|usages| - 1]);
    }
  }

  /**
   * Each (usage, artifact) occurrence has its own position in AllArtifacts:
   * artifact `j` of usage `i` sits at ArtifactCount(usages[..i]) + j. With
   * AllArtifactsLength these positions are all of AllArtifacts, so an
   * artifact listed twice appears twice.
   */
  lemma {:induction false} AllArtifactsAt(usages: seq<UsageContext>, i: nat, j: nat)
    requires i < |usages| && j < |usages[i].artifacts|
    ensures ArtifactCount(usages[..i]) + j < |AllArtifacts(usages)|
    ensures AllArtifacts(usages)[ArtifactCount(usages[..i]) + j] == usages[i].artifacts[j]
    decreases |usages|
  {
    var front := usages[..|usages| - 1];
    AllArtifactsLength(front);
    if i < |usages| - 1 {
      AllArtifactsAt(front, i, j);
      assert front[..i] == usages[..i];
    } else {
      assert front == usages[..i];
    }
  }

  /** An artifact is among AllArtifacts exactly when some usage lists it. */
  lemma {:induction false} AllArtifactsMembership(usages: seq<UsageContext>, a: PublishArtifact)
    ensures a in AllArtifacts(usages) <==> exists i :: 0 <= i < |usages| && a in usages[i].artifacts
    decreases |usages|
  {
    if usages != [] {
      var front := usages[..|usages| - 1];
      AllArtifactsMembership(front, a);
      if a in AllArtifacts(usages) && a !in usages[|usages| - 1].artifacts {
        var i :| 0 <= i < |front| && a in front[i].artifacts;
        assert usages[i] == front[i];
      }
      if exists i :: 0 <= i < |usages| && a in usages[i].artifacts {
        var i :| 0 <= i < |usages| && a in usages[i].artifacts;
        if i < |front| {
          assert front[i] == usages[i];
        }
      }
    }
  }

  /** The linked set holds exactly the elements of `s`, each once. */
  lemma {:induction false} LinkedSetOfElements<T>(s: seq<T>)
    ensures NoDuplicates(LinkedSetOf(s))
    ensures forall x :: x in LinkedSetOf(s) <==> x in s
    decreases |s|
  {
    if s != [] {
      var front := s[..|s| - 1];
      LinkedSetOfElements(front);
      assert s == front + [s[|s| - 1]];
    }
  }

  lemma FirstIndexExtend<T>(s: seq<T>, y: T, x: T)
    requires x in s
    ensures FirstIndex(s + [y], x) == FirstIndex(s, x)
  {
    var i, j := FirstIndex(s + [y], x), FirstIndex(s, x);
    assert (s + [y])[j] == x;
    assert (s + [y])[..j] == s[..j];
  }

  /**
   * The linked set lists the elements in first-occurrence order: an element
   * that first occurs earlier in `s` comes earlier in the set.
   */
  lemma {:induction false} LinkedSetOfOrder<T>(s: seq<T>)
    ensures InFirstOccurrenceOrder(LinkedSetOf(s), s)
    decreases |s|
  {
    if s != [] {
      var front, x := s[..|s| - 1], s[|s| - 1];
      assert s == front + [x];
      LinkedSetOfOrder(front);
      LinkedSetOfElements(front);
      var r', r := LinkedSetOf(front), LinkedSetOf(s);
      assert r == AddToLinkedSet(r', x);
      forall i, j | 0 <= i < j < |r|
        ensures r[i] in s && r[j] in s && FirstIndex(s, r[i]) < FirstIndex(s, r[j])
      {
        assert r[i] == r'[i] && r[i] in front;
        FirstIndexExtend(front, x, r[i]);
        if j < |r'| {
          assert r[j] == r'[j];
          FirstIndexExtend(front, x, r[j]);
        } else {
          assert r[j] == x && x !in front;
          assert FirstIndex(s, r[i]) == FirstIndex(front, r[i]) < |front| == FirstIndex(s, x);
        }
      }
    }
  }

  /**
   * The insertion-ordered set of the files of `artifacts` holds the file of
   * every artifact and no other file, each once, in first-occurrence order.
   */
  lemma LinkedFiles(artifacts: seq<PublishArtifact>)
    ensures var files := LinkedSetOf(FilesIn(artifacts));
      NoDuplicates(files) && InFirstOccurrenceOrder(files, FilesIn(artifacts)) &&
      (forall a :: a in artifacts ==> a.file in files) &&
      (forall f :: f in files ==> exists a :: a in artifacts && a.file == f)
  {
    var all := FilesIn(artifacts);
    var files := LinkedSetOf(all);
    LinkedSetOfElements(all);
    LinkedSetOfOrder(all);
    forall a | a in artifacts
      ensures a.file in files
    {
      var k :| 0 <= k < |artifacts| && artifacts[k] == a;
      assert all[k] == a.file;
    }
    forall f | f in files
      ensures exists a :: a in artifacts && a.file == f
    {
      var k :| 0 <= k < |all| && all[k] == f;
      assert artifacts[k] in artifacts;
    }
  }

  // ---------------------------------------------------------------------
  // The task and its input file set
  // ---------------------------------------------------------------------

  /** The dependency set that `getBuildDependencies` fills; `added` records every `add` in order. */
  class TaskDependency {
    var added: seq<PublishArtifact>

    constructor ()
      ensures added == []
    {
      added := [];
    }

    method Add(artifact: PublishArtifact)
      modifies this
      ensures added == old(added) + [artifact]
    {
      added := added + [artifact];
    }
  }

  class GenerateModuleMetadata {
    /** The publication property; it may be reconfigured until the task runs. */
    var publication: Publication
    /** The task's path, e.g. ":lib:generateMetadataFileForMavenPublication". */
    const path: string

    constructor (path: string, publication: Publication)
      ensures this.path == path && this.publication == publication
    {
      this.path := path;
      this.publication := publication;
    }

    /** The task's only-if condition: the publication has a component attached. */
    function HasAttachedComponent(): (attached: bool)
      reads this
      ensures attached <==> publication.component != None
    {
      match publication.component
      case None => false
      case Some(_) => true
    }
  }

  /** The task's input files, computed from the task's publication when asked. */
  class VariantFiles {
    const task: GenerateModuleMetadata

    constructor (task: GenerateModuleMetadata)
      ensures this.task == task
    {
      this.task := task;
    }

    /**
     * Runs the action once per (usage, artifact) occurrence; the result is the
     * sequence of artifacts the action was applied to, in order.
     */
    method ForEachArtifactOf(component: SoftwareComponent) returns (applied: seq<PublishArtifact>)
      ensures applied == AllArtifacts(component.usages)
      ensures |applied| == ArtifactCount(component.usages)
    {
      var usages := component.usages;
      applied := [];
      for u := 0 to |usages|
        invariant applied == AllArtifacts(usages[..u])
      {
        var artifacts := usages[u].artifacts;
        for a := 0 to |artifacts|
          invariant applied == AllArtifacts(usages[..u]) + artifacts[..a]
        {
          applied := applied + [artifacts[a]];
        }
        assert usages[..u + 1][..u] == usages[..u];
        assert artifacts[..|artifacts|] == artifacts;
      }
      assert usages[..|usages|] == usages;
      AllArtifactsLength(usages);
    }

    /** The files of all artifacts of the component, as an insertion-ordered set. */
    method FilesOf(component: SoftwareComponent) returns (files: seq<File>)
      ensures files == LinkedSetOf(FilesIn(AllArtifacts(component.usages)))
      ensures NoDuplicates(files)
      ensures InFirstOccurrenceOrder(files, FilesIn(AllArtifacts(component.usages)))
      ensures forall a :: a in AllArtifacts(component.usages) ==> a.file in files
      ensures forall f :: f in files ==> exists a :: a in AllArtifacts(component.usages) && a.file == f
    {
      var applied := ForEachArtifactOf(component);
      files := [];
      for k := 0 to |applied|
        invariant files == LinkedSetOf(FilesIn(applied[..k]))
      {
        assert applied[..k + 1][..k] == applied[..k];
        assert FilesIn(applied[..k + 1]) == FilesIn(applied[..k]) + [applied[k].file];
        var file := applied[k].file;
        if file !in files {
          files := files + [file];
        }
      }
      assert applied[..|applied|] == applied;
      LinkedFiles(applied);
    }

    /** `getFiles`: empty when no component is attached, otherwise FilesOf the component. */
    method GetFiles() returns (files: seq<File>)
      ensures task.publication.component == None ==> files == []
      ensures task.publication.component != None ==>
        files == LinkedSetOf(FilesIn(AllArtifacts(task.publication.component.value.usages)))
    {
      var component := task.publication.component;
      if component == None {
        files := [];
      } else {
        files := FilesOf(component.value);
      }
    }

    /** `getBuildDependencies`: a new dependency set to which every artifact occurrence was added. */
    method GetBuildDependencies() returns (dependency: TaskDependency)
      ensures fresh(dependency)
      ensures task.publication.component == None ==> dependency.added == []
      ensures task.publication.component != None ==>
        dependency.added == AllArtifacts(task.publication.component.value.usages)
    {
      dependency := new TaskDependency();
      var component := task.publication.component;
      if component != None {
        var applied := ForEachArtifactOf(component.value);
        for k := 0 to |applied|
          invariant dependency.added == applied[..k]
        {
          dependency.Add(applied[k]);
          assert applied[..k + 1] == applied[..k] + [applied[k]];
        }
        assert applied[..|applied|] == applied;
      }
    }

    /** `getDisplayName`: "files of " followed by the task's path. */
    function GetDisplayName(): (name: string)
      ensures |name| == 9 + |task.path|
      ensures name[..9] == "files of " && name[9..] == task.path
    {
      "files of " + task.path
    }
  }
}
