/**
 * The part of an Nx workspace the generators read and write: project configurations
 * keyed by project name, each with a project type and a map of targets.
 */
module NxWorkspace {
  import opened Wrappers

  /** A target entry; `typeof` of `null` is 'object' in JavaScript, so a null entry is kept apart. */
  datatype TargetValue = TargetObject(executor: Option<string>) | NullTarget | NonObjectTarget

  datatype ProjectConfiguration = ProjectConfiguration(
    root: string,
    projectType: Option<string>,
    targets: Option<map<string, TargetValue>>)

  /** The workspace tree, reduced to its project configurations. */
  class Tree {
    var projects: map<string, ProjectConfiguration>

    constructor (projects: map<string, ProjectConfiguration>)
      ensures this.projects == projects
    {
      this.projects := projects;
    }

    /** `updateProjectConfiguration(tree, name, config)`. */
    method UpdateProjectConfiguration(projectName: string, config: ProjectConfiguration)
      modifies this
      ensures projects == old(projects)[projectName := config]
    {
      projects := projects[projectName := config];
    }
  }
}

/** The error text for requested projects that are not buildable libraries (generators/configure/utils.ts). */
module ConfigureUtils {
  import opened Wrappers
  import opened Sequences
  import Decorators

  const MessagePrefix: string := "\U{274C} You specified projects which do not exist in workspace: \""
  const MessageSuffix: string := "\"."

  function CreateNonExistingProjectsErrorMessage(nonExistingProjects: seq<string>): (r: string)
    ensures |r| >= |MessagePrefix| + |MessageSuffix|
    ensures r[..|MessagePrefix|] == MessagePrefix && r[|r| - |MessageSuffix|..] == MessageSuffix
    ensures nonExistingProjects == [] ==> r == MessagePrefix + MessageSuffix
  {
    MessagePrefix + Join(nonExistingProjects, ", ") + MessageSuffix
  }

  /** Reads the names back out of such a message. */
  function ListedNames(message: string): Option<seq<string>>
  {
    if |message| < |MessagePrefix| + |MessageSuffix| || message[..|MessagePrefix|] != MessagePrefix ||
       message[|message| - |MessageSuffix|..] != MessageSuffix
    then None
    else
      var body := message[|MessagePrefix|..|message| - |MessageSuffix|];
      if body == "" then Some([]) else Some(Decorators.SplitOnCommaWs(body))
  }

  /**
   * The message lists the names in order, separated by ", ": reading it back gives the list,
   * for names that are non-empty, contain no comma or line break and are not padded with spaces.
   */
  lemma {:induction false} MessageListsNames(names: seq<string>)
    requires forall i :: 0 <= i < |names| ==> Decorators.IsPlainSelector(names[i])
    ensures ListedNames(CreateNonExistingProjectsErrorMessage(names)) == Some(names)
  {
    var m := CreateNonExistingProjectsErrorMessage(names);
    var body := Join(names, ", ");
    assert m == MessagePrefix + body + MessageSuffix;
    assert m[|MessagePrefix|..|m| - |MessageSuffix|] == body;
    if names != [] {
      assert names[0] != "";
      Decorators.JoinStartsWith(names);
      Decorators.SplitOnCommaWsJoin(names);
    }
  }
}

/** The `configure` generator (generators/configure/generator.ts). */
module ConfigureGenerator {
  import opened Wrappers
  import opened Sequences
  import opened NxWorkspace
  import opened ConfigureUtils

  /** A library whose `targets.build` has `typeof` 'object' (an object or null). */
  predicate IsBuildableLibrary(config: ProjectConfiguration)
  {
    config.projectType == Some("library") && config.targets.Some? && "build" in config.targets.value &&
    (config.targets.value["build"].TargetObject? || config.targets.value["build"].NullTarget?)
  }

  function WorkspaceLibraries(projects: map<string, ProjectConfiguration>): (r: set<string>)
    ensures forall name :: name in r <==> name in projects && IsBuildableLibrary(projects[name])
  {
    set name | name in projects && IsBuildableLibrary(projects[name])
  }

  /** The requested names that are not buildable libraries, in requested order. */
  function NonExistingProjects(optionsProjects: seq<string>, libraries: set<string>): (r: seq<string>)
    ensures forall i :: 0 <= i < |r| ==> r[i] in optionsProjects && r[i] !in libraries
    ensures forall i :: 0 <= i < |optionsProjects| && optionsProjects[i] !in libraries ==> optionsProjects[i] in r
    ensures IsSubsequence(r, optionsProjects)
    ensures forall x :: multiset(r)[x] == if x in libraries then 0 else multiset(optionsProjects)[x]
  {
    var r := Filter(optionsProjects, name => name !in libraries);
    FilterIsSubsequence(optionsProjects, name => name !in libraries);
    forall x
      ensures multiset(r)[x] == if x in libraries then 0 else multiset(optionsProjects)[x]
    {
      FilterCounts(optionsProjects, name => name !in libraries, x);
    }
    r
  }

  /** `nonExistingProjects.some(p => p)`: some entry is a non-empty string. */
  predicate SomeTruthy(names: seq<string>)
  {
    exists i :: 0 <= i < |names| && names[i] != ""
  }

  const DocGenTarget: TargetValue := TargetObject(Some("ngx-doc-gen:generate"))

  /** The configuration with `targets['doc-gen']` set, when it has targets at all. */
  function WithDocGenTarget(config: ProjectConfiguration): (r: ProjectConfiguration)
    ensures r.root == config.root && r.projectType == config.projectType
    ensures config.targets.None? ==> r == config
    ensures config.targets.Some? ==>
              (r.targets.Some? && r.targets.value.Keys == config.targets.value.Keys + {"doc-gen"} &&
               r.targets.value["doc-gen"] == DocGenTarget &&
               forall t :: t in config.targets.value && t != "doc-gen" ==> r.targets.value[t] == config.targets.value[t])
  {
    if config.targets.Some? then config.(targets := Some(config.targets.value["doc-gen" := DocGenTarget])) else config
  }

  /** The projects after every selected one has been given the doc-gen target. */
  function Configured(projects: map<string, ProjectConfiguration>, selected: set<string>): map<string, ProjectConfiguration>
  {
    map name | name in projects :: if name in selected then WithDocGenTarget(projects[name]) else projects[name]
  }

  /** With no names requested every buildable library is selected, otherwise the requested ones. */
  function SelectedLibraries(libraries: set<string>, optionsProjects: seq<string>): (r: set<string>)
    ensures r <= libraries
    ensures optionsProjects == [] ==> r == libraries
    ensures optionsProjects != [] ==> forall name :: name in r <==> name in libraries && name in optionsProjects
  {
    if |optionsProjects| > 0 then set name | name in libraries && name in optionsProjects else libraries
  }

  /** The whole generator: the new project map, or the error it throws before changing anything. */
  function ConfigureResult(projects: map<string, ProjectConfiguration>, optionsProjects: Option<seq<string>>)
    : (r: Result<map<string, ProjectConfiguration>, string>)
    ensures r.Failure? ==>
              (optionsProjects.Some? &&
               exists i :: 0 <= i < |optionsProjects.value| && optionsProjects.value[i] != "" &&
                           optionsProjects.value[i] !in WorkspaceLibraries(projects))
    ensures r.Success? ==> r.value.Keys == projects.Keys
    ensures r.Success? ==> forall name :: name in projects && !IsBuildableLibrary(projects[name]) ==>
                                          r.value[name] == projects[name]
  {
    var libraries := WorkspaceLibraries(projects);
    var requested := if optionsProjects.Some? then optionsProjects.value else [];
    var nonExisting := NonExistingProjects(requested, libraries);
    if SomeTruthy(nonExisting) then Failure(CreateNonExistingProjectsErrorMessage(nonExisting))
    else Success(Configured(projects, SelectedLibraries(libraries, requested)))
  }

  method Configure(tree: Tree, optionsProjects: Option<seq<string>>) returns (error: Option<string>)
    modifies tree
    ensures var r := ConfigureResult(old(tree.projects), optionsProjects);
            (error.Some? <==> r.Failure?) &&
            (r.Failure? ==> error.value == r.error && tree.projects == old(tree.projects)) &&
            (r.Success? ==> tree.projects == r.value)
  {
    var workspaceLibraries := WorkspaceLibraries(tree.projects);
    var requested := if optionsProjects.Some? then optionsProjects.value else [];
    var nonExisting := NonExistingProjects(requested, workspaceLibraries);
    if SomeTruthy(nonExisting) {
      return Some(CreateNonExistingProjectsErrorMessage(nonExisting));
    }
    var specified := SelectedLibraries(workspaceLibraries, requested);
    ConfigureAll(tree, specified);
    return None;
  }

  /** The update loop, shared by both generators: each selected project with targets gets the doc-gen target. */
  method ConfigureAll(tree: Tree, specified: set<string>)
    requires specified <= tree.projects.Keys
    modifies tree
    ensures tree.projects == Configured(old(tree.projects), specified)
  {
    ghost var projects := tree.projects;
    var remaining := specified;
    while remaining != {}
      invariant remaining <= specified
      invariant tree.projects == Configured(projects, specified - remaining)
      decreases remaining
    {
      var projectName :| projectName in remaining;
      var projectConfiguration := tree.projects[projectName];
      if projectConfiguration.targets.Some? {
        projectConfiguration := WithDocGenTarget(projectConfiguration);
        tree.UpdateProjectConfiguration(projectName, projectConfiguration);
      }
      remaining := remaining - {projectName};
    }
    assert specified - remaining == specified;
  }

  // ---- what the generator promises ----

  /** It throws exactly when some non-empty requested name is not a buildable library; the message lists all such names. */
  lemma {:induction false} ConfigureFailsIff(projects: map<string, ProjectConfiguration>, optionsProjects: Option<seq<string>>)
    ensures var requested := if optionsProjects.Some? then optionsProjects.value else [];
            ConfigureResult(projects, optionsProjects).Failure? <==>
              exists i :: 0 <= i < |requested| && requested[i] != "" &&
                          (requested[i] !in projects || !IsBuildableLibrary(projects[requested[i]]))
    ensures var requested := if optionsProjects.Some? then optionsProjects.value else [];
            ConfigureResult(projects, optionsProjects).Failure? ==>
              ConfigureResult(projects, optionsProjects).error ==
              CreateNonExistingProjectsErrorMessage(NonExistingProjects(requested, WorkspaceLibraries(projects)))
  {
    var requested := if optionsProjects.Some? then optionsProjects.value else [];
    var libraries := WorkspaceLibraries(projects);
    var nonExisting := NonExistingProjects(requested, libraries);
    assert ConfigureResult(projects, optionsProjects).Failure? <==> SomeTruthy(nonExisting);
    if SomeTruthy(nonExisting) {
      var k :| 0 <= k < |nonExisting| && nonExisting[k] != "";
      var i := IndexOf(requested, nonExisting[k]);
      assert requested[i] != "" && requested[i] !in libraries;
    }
  }

  /**
   * On success, exactly the selected buildable libraries get the doc-gen target, keeping their
   * other targets; every other project, applications included, is left as it was.
   */
  lemma {:induction false} ConfigureChangesOnlySelected(projects: map<string, ProjectConfiguration>, optionsProjects: Option<seq<string>>,
                                     name: string)
    requires ConfigureResult(projects, optionsProjects).Success?
    ensures var r := ConfigureResult(projects, optionsProjects).value;
            var requested := if optionsProjects.Some? then optionsProjects.value else [];
            r.Keys == projects.Keys &&
            (name in projects ==>
              (IsBuildableLibrary(projects[name]) && (requested == [] || name in requested) ==>
                 r[name].targets.Some? && r[name].targets.value["doc-gen"] == DocGenTarget &&
                 r[name].targets.value.Keys == projects[name].targets.value.Keys + {"doc-gen"} &&
                 forall t :: t in projects[name].targets.value && t != "doc-gen" ==>
                   r[name].targets.value[t] == projects[name].targets.value[t]) &&
              (!(IsBuildableLibrary(projects[name]) && (requested == [] || name in requested)) ==> r[name] == projects[name]))
  {
  }
}

/** The `install` generator (generators/install/generator.ts): like configure, but an empty request selects nothing. */
module InstallGenerator {
  import opened Wrappers
  import opened Sequences
  import opened NxWorkspace
  import opened ConfigureUtils
  import opened ConfigureGenerator

  function InstallSelection(libraries: set<string>, optionsProjects: seq<string>): (r: set<string>)
    ensures forall name :: name in r <==> name in libraries && name in optionsProjects
  {
    set name | name in libraries && name in optionsProjects
  }

  function InstallResult(projects: map<string, ProjectConfiguration>, optionsProjects: Option<seq<string>>)
    : (r: Result<map<string, ProjectConfiguration>, string>)
    ensures r.Failure? ==>
              (optionsProjects.Some? &&
               exists i :: 0 <= i < |optionsProjects.value| && optionsProjects.value[i] != "" &&
                           optionsProjects.value[i] !in WorkspaceLibraries(projects))
    ensures r.Success? ==> r.value.Keys == projects.Keys
    ensures r.Success? ==> forall name :: name in projects && !IsBuildableLibrary(projects[name]) ==>
                                          r.value[name] == projects[name]
  {
    var libraries := WorkspaceLibraries(projects);
    var requested := if optionsProjects.Some? then optionsProjects.value else [];
    var nonExisting := NonExistingProjects(requested, libraries);
    if SomeTruthy(nonExisting) then Failure(CreateNonExistingProjectsErrorMessage(nonExisting))
    else Success(Configured(projects, InstallSelection(libraries, requested)))
  }

  method Install(tree: Tree, optionsProjects: Option<seq<string>>) returns (error: Option<string>)
    modifies tree
    ensures var r := InstallResult(old(tree.projects), optionsProjects);
            (error.Some? <==> r.Failure?) &&
            (r.Failure? ==> error.value == r.error && tree.projects == old(tree.projects)) &&
            (r.Success? ==> tree.projects == r.value)
  {
    var workspaceLibraries := WorkspaceLibraries(tree.projects);
    var requested := if optionsProjects.Some? then optionsProjects.value else [];
    var nonExisting := NonExistingProjects(requested, workspaceLibraries);
    if SomeTruthy(nonExisting) {
      return Some(CreateNonExistingProjectsErrorMessage(nonExisting));
    }
    var specified := InstallSelection(workspaceLibraries, requested);
    ConfigureAll(tree, specified);
    return None;
  }

  /** A missing or empty request configures nothing. */
  lemma {:induction false} InstallEmptyRequestChangesNothing(projects: map<string, ProjectConfiguration>, optionsProjects: Option<seq<string>>)
    requires optionsProjects.None? || optionsProjects.value == []
    ensures InstallResult(projects, optionsProjects) == Success(projects)
  {
    var requested := if optionsProjects.Some? then optionsProjects.value else [];
    assert requested == [];
    assert NonExistingProjects(requested, WorkspaceLibraries(projects)) == [];
    assert InstallSelection(WorkspaceLibraries(projects), requested) == {};
    var r := Configured(projects, {});
    assert r.Keys == projects.Keys;
    assert forall name :: name in projects ==> r[name] == projects[name];
    assert r == projects;
  }

  /** For a non-empty request the two generators agree, errors included. */
  lemma {:induction false} InstallAgreesWithConfigure(projects: map<string, ProjectConfiguration>, requested: seq<string>)
    requires requested != []
    ensures InstallResult(projects, Some(requested)) == ConfigureResult(projects, Some(requested))
  {
    assert InstallSelection(WorkspaceLibraries(projects), requested) == SelectedLibraries(WorkspaceLibraries(projects), requested);
  }

  /** Install fails exactly when configure does, whatever the request. */
  lemma {:induction false} InstallFailsIff(projects: map<string, ProjectConfiguration>, optionsProjects: Option<seq<string>>)
    ensures InstallResult(projects, optionsProjects).Failure? <==> ConfigureResult(projects, optionsProjects).Failure?
    ensures InstallResult(projects, optionsProjects).Failure? ==>
            InstallResult(projects, optionsProjects).error == ConfigureResult(projects, optionsProjects).error
  {
  }
}
