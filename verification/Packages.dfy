/** The Remote Config installer state: the list of packages the daemon reports, as the
    list it is, and as the map from package name to package that the list stands for. */
module Packages {
  import opened PendingSlot

  datatype TaskState = RUNNING | DONE | ERROR | INVALID_STATE

  datatype Task = Task(id: string, state: TaskState)

  datatype PackageState = PackageState(
    name: string,
    stableVersion: string,
    experimentVersion: string,
    task: Option<Task>,
    stableConfig: string,
    experimentConfig: string)

  /** One write of the daemon to the installer state, in the order Remote Config sees them. */
  datatype Report =
    | TaskReport(package: string, taskID: string, state: TaskState)
    | VersionReport(package: string, stable: string, experiment: string)

  /** The current list and every write made so far. */
  datatype Installer = Installer(packages: seq<PackageState>, log: seq<Report>)

  predicate Has(packages: seq<PackageState>, name: string) {
    exists i :: 0 <= i < |packages| && packages[i].name == name
  }

  predicate UniqueNames(packages: seq<PackageState>) {
    forall i, j :: 0 <= i < j < |packages| ==> packages[i].name != packages[j].name
  }

  function BlankPackage(name: string): PackageState {
    PackageState(name, "", "", None, "", "")
  }

  /** Appends a blank entry when there is none for the name. */
  function Ensure(packages: seq<PackageState>, name: string): seq<PackageState> {
    if Has(packages, name) then packages else packages + [BlankPackage(name)]
  }

  function WithTask(packages: seq<PackageState>, name: string, task: Task): seq<PackageState> {
    var all := Ensure(packages, name);
    seq(|all|, i requires 0 <= i < |all| => if all[i].name == name then all[i].(task := Some(task)) else all[i])
  }

  function WithVersions(packages: seq<PackageState>, name: string, stable: string, experiment: string)
    : seq<PackageState>
  {
    var all := Ensure(packages, name);
    seq(|all|, i requires 0 <= i < |all| =>
        if all[i].name == name then all[i].(stableConfig := stable, experimentConfig := experiment) else all[i])
  }

  /** The config versions of the first entry with the name; blank when there is none. */
  function Versions(packages: seq<PackageState>, name: string): (string, string) {
    if packages == [] then ("", "")
    else if packages[0].name == name then (packages[0].stableConfig, packages[0].experimentConfig)
    else Versions(packages[1..], name)
  }

  function SetTaskState(installer: Installer, name: string, taskID: string, state: TaskState): Installer {
    Installer(WithTask(installer.packages, name, Task(taskID, state)),
              installer.log + [TaskReport(name, taskID, state)])
  }

  function SetVersions(installer: Installer, name: string, stable: string, experiment: string): Installer {
    Installer(WithVersions(installer.packages, name, stable, experiment),
              installer.log + [VersionReport(name, stable, experiment)])
  }

  /** One round of the repair: a package whose experiment is the one that ended. */
  function RepairStep(installer: Installer, package: PackageState, experimentID: string, startTaskID: string): Installer {
    if package.experimentConfig != experimentID then installer
    else
      var reported := if startTaskID != "" then SetTaskState(installer, package.name, startTaskID, ERROR) else installer;
      SetVersions(reported, package.name, package.stableConfig, "")
  }

  /** Repair after an experiment ended on its own: for each package of the list `todo`, as it
      was read, that still reports the experiment, report the start task (when known) as failed
      and clear the experiment version. */
  function Repair(installer: Installer, todo: seq<PackageState>, experimentID: string, startTaskID: string)
    : Installer
    decreases |todo|
  {
    if todo == [] then installer
    else
      Repair(RepairStep(installer, todo[0], experimentID, startTaskID), todo[1..], experimentID, startTaskID)
  }

  // ---------------------------------------------------------------- the map behind the list

  function Names(packages: seq<PackageState>): set<string> {
    set i | 0 <= i < |packages| :: packages[i].name
  }

  function Find(packages: seq<PackageState>, name: string): PackageState
    requires Has(packages, name)
  {
    if packages[0].name == name then packages[0] else Find(packages[1..], name)
  }

  /** What the list means: each name's package. */
  function View(packages: seq<PackageState>): map<string, PackageState> {
    map name | name in Names(packages) && Has(packages, name) :: Find(packages, name)
  }

  /** With unique names, a package is found wherever it is. */
  lemma {:induction false} FindAt(packages: seq<PackageState>, i: nat)
    requires UniqueNames(packages) && i < |packages|
    ensures Has(packages, packages[i].name)
    ensures Find(packages, packages[i].name) == packages[i]
    ensures Versions(packages, packages[i].name) == (packages[i].stableConfig, packages[i].experimentConfig)
  {
    if i > 0 {
      assert packages[1..][i - 1] == packages[i];
      FindAt(packages[1..], i - 1);
    }
  }

  lemma {:induction false} VersionsOfAbsent(packages: seq<PackageState>, name: string)
    requires !Has(packages, name)
    ensures Versions(packages, name) == ("", "")
  {
    if packages != [] {
      assert packages[0].name != name;
      assert forall i :: 0 <= i < |packages[1..]| ==> packages[1..][i] == packages[i + 1];
      VersionsOfAbsent(packages[1..], name);
    }
  }

  lemma ViewAt(packages: seq<PackageState>, name: string)
    ensures name in View(packages) <==> Has(packages, name)
    ensures Has(packages, name) ==> View(packages)[name] == Find(packages, name)
  {
    if Has(packages, name) {
      var i :| 0 <= i < |packages| && packages[i].name == name;
      assert packages[i].name in Names(packages);
    }
  }

  /** Reading versions is reading the map. */
  lemma VersionsRefineView(packages: seq<PackageState>, name: string)
    requires UniqueNames(packages)
    ensures Versions(packages, name) ==
            if name in View(packages) then (View(packages)[name].stableConfig, View(packages)[name].experimentConfig)
            else ("", "")
  {
    ViewAt(packages, name);
    if Has(packages, name) {
      var i :| 0 <= i < |packages| && packages[i].name == name;
      FindAt(packages, i);
    } else {
      VersionsOfAbsent(packages, name);
    }
  }

  /** A list that is `packages` (with an entry for `name`) except at `name`, where it is `entry`. */
  predicate Replaces(packages: seq<PackageState>, updated: seq<PackageState>, name: string, entry: PackageState) {
    var all := Ensure(packages, name);
    && entry.name == name
    && |updated| == |all|
    && forall i :: 0 <= i < |all| ==> updated[i] == if all[i].name == name then entry else all[i]
  }

  function Entry(packages: seq<PackageState>, name: string): PackageState {
    if Has(packages, name) then Find(packages, name) else BlankPackage(name)
  }

  lemma UpdatesReplace(packages: seq<PackageState>, name: string, task: Task, stable: string, experiment: string)
    requires UniqueNames(packages)
    ensures Replaces(packages, WithTask(packages, name, task), name,
                     Entry(packages, name).(task := Some(task)))
    ensures Replaces(packages, WithVersions(packages, name, stable, experiment), name,
                     Entry(packages, name).(stableConfig := stable, experimentConfig := experiment))
  {
    var all := Ensure(packages, name);
    forall i | 0 <= i < |all| && all[i].name == name
      ensures all[i] == Entry(packages, name)
    {
      if Has(packages, name) { FindAt(packages, i); }
    }
    if Has(packages, name) { FindNamed(packages, name); }
  }

  lemma {:induction false} FindNamed(packages: seq<PackageState>, name: string)
    requires Has(packages, name)
    ensures Find(packages, name).name == name
  {
    if packages[0].name != name {
      assert Has(packages[1..], name) by {
        var i :| 0 <= i < |packages| && packages[i].name == name;
        assert packages[1..][i - 1].name == name;
      }
      FindNamed(packages[1..], name);
    }
  }

  lemma ReplacedNames(packages: seq<PackageState>, updated: seq<PackageState>, name: string, entry: PackageState)
    requires UniqueNames(packages) && Replaces(packages, updated, name, entry)
    ensures UniqueNames(updated)
  {
    var all := Ensure(packages, name);
    assert forall i :: 0 <= i < |all| ==> updated[i].name == all[i].name;
  }

  /** One name of a replaced list: the replaced one has the new entry, any other its old one. */
  lemma ReplacedName(packages: seq<PackageState>, updated: seq<PackageState>, name: string, entry: PackageState, n: string)
    requires UniqueNames(packages) && Replaces(packages, updated, name, entry)
    ensures Has(updated, n) <==> n == name || Has(packages, n)
    ensures Has(updated, n) ==> Find(updated, n) == if n == name then entry else Find(packages, n)
  {
    ReplacedNames(packages, updated, name, entry);
    var all := Ensure(packages, name);
    if n == name {
      assert Has(all, name) by { if !Has(packages, name) { assert all[|packages|].name == name; } }
      var i :| 0 <= i < |all| && all[i].name == name;
      assert updated[i] == entry;
      FindAt(updated, i);
    } else if Has(packages, n) {
      var i :| 0 <= i < |packages| && packages[i].name == n;
      assert all[i] == packages[i] && updated[i] == packages[i];
      FindAt(updated, i);
      FindAt(packages, i);
    }
  }

  lemma ReplacesRefines(packages: seq<PackageState>, updated: seq<PackageState>, name: string, entry: PackageState)
    requires UniqueNames(packages) && Replaces(packages, updated, name, entry)
    ensures UniqueNames(updated)
    ensures View(updated) == View(packages)[name := entry]
  {
    ReplacedNames(packages, updated, name, entry);
    var expected := View(packages)[name := entry];
    forall n
      ensures n in View(updated) <==> n in expected
      ensures n in View(updated) ==> View(updated)[n] == expected[n]
    {
      ViewAt(packages, n);
      ViewAt(updated, n);
      ReplacedName(packages, updated, name, entry, n);
    }
  }

  function EntryOnMap(view: map<string, PackageState>, name: string): PackageState {
    if name in view then view[name] else BlankPackage(name)
  }

  function TaskOnMap(view: map<string, PackageState>, name: string, task: Task): map<string, PackageState> {
    view[name := EntryOnMap(view, name).(task := Some(task))]
  }

  function VersionsOnMap(view: map<string, PackageState>, name: string, stable: string, experiment: string)
    : map<string, PackageState>
  {
    view[name := EntryOnMap(view, name).(stableConfig := stable, experimentConfig := experiment)]
  }

  /** A task update on the list is a map update: names stay unique and every other package,
      and every other field of this one, is left alone. */
  lemma SetTaskRefinesMap(packages: seq<PackageState>, name: string, task: Task)
    requires UniqueNames(packages)
    ensures UniqueNames(WithTask(packages, name, task))
    ensures View(WithTask(packages, name, task)) == TaskOnMap(View(packages), name, task)
  {
    UpdatesReplace(packages, name, task, "", "");
    ReplacesRefines(packages, WithTask(packages, name, task), name, Entry(packages, name).(task := Some(task)));
    ViewAt(packages, name);
  }

  lemma SetVersionsRefinesMap(packages: seq<PackageState>, name: string, stable: string, experiment: string)
    requires UniqueNames(packages)
    ensures UniqueNames(WithVersions(packages, name, stable, experiment))
    ensures View(WithVersions(packages, name, stable, experiment))
         == VersionsOnMap(View(packages), name, stable, experiment)
  {
    UpdatesReplace(packages, name, Task("", RUNNING), stable, experiment);
    ReplacesRefines(packages, WithVersions(packages, name, stable, experiment), name,
                    Entry(packages, name).(stableConfig := stable, experimentConfig := experiment));
    ViewAt(packages, name);
  }

  /** A get after a set returns what was set; the versions of other packages do not move,
      and a task update moves no version at all. */
  lemma GetAfterSet(packages: seq<PackageState>, name: string, other: string, stable: string, experiment: string,
                    task: Task)
    requires UniqueNames(packages)
    ensures Versions(WithVersions(packages, name, stable, experiment), other) ==
            if other == name then (stable, experiment) else Versions(packages, other)
    ensures Versions(WithTask(packages, name, task), other) == Versions(packages, other)
  {
    SetVersionsRefinesMap(packages, name, stable, experiment);
    SetTaskRefinesMap(packages, name, task);
    VersionsRefineView(packages, other);
    VersionsRefineView(WithVersions(packages, name, stable, experiment), other);
    VersionsRefineView(WithTask(packages, name, task), other);
    ViewAt(packages, name);
  }

  /** A task update and a version update commute on the map, for the same package or for
      different ones. */
  lemma UpdatesCommute(packages: seq<PackageState>, a: string, task: Task, b: string, stable: string, experiment: string)
    requires UniqueNames(packages)
    ensures View(WithVersions(WithTask(packages, a, task), b, stable, experiment))
         == View(WithTask(WithVersions(packages, b, stable, experiment), a, task))
  {
    SetTaskRefinesMap(packages, a, task);
    SetVersionsRefinesMap(packages, b, stable, experiment);
    SetVersionsRefinesMap(WithTask(packages, a, task), b, stable, experiment);
    SetTaskRefinesMap(WithVersions(packages, b, stable, experiment), a, task);
    MapUpdatesCommute(View(packages), a, task, b, stable, experiment);
  }

  lemma MapUpdatesCommute(view: map<string, PackageState>, a: string, task: Task, b: string, stable: string,
                          experiment: string)
    ensures VersionsOnMap(TaskOnMap(view, a, task), b, stable, experiment)
         == TaskOnMap(VersionsOnMap(view, b, stable, experiment), a, task)
  {
  }

  /** On the list they commute too, exactly unless both must create a different package. */
  lemma ListUpdatesCommuteIff(packages: seq<PackageState>, a: string, task: Task, b: string, stable: string,
                              experiment: string)
    ensures WithVersions(WithTask(packages, a, task), b, stable, experiment)
         == WithTask(WithVersions(packages, b, stable, experiment), a, task)
       <==> (a == b || Has(packages, a) || Has(packages, b))
  {
    var withTask := WithTask(packages, a, task);
    var withVersions := WithVersions(packages, b, stable, experiment);
    var taskFirst := WithVersions(withTask, b, stable, experiment);
    var versionsFirst := WithTask(withVersions, a, task);
    HasAfterUpdate(packages, a, task, b, stable, experiment);
    HasAfterUpdate(packages, b, task, a, stable, experiment);
    if a != b && !Has(packages, a) && !Has(packages, b) {
      assert taskFirst[|packages|].name == a;
      assert versionsFirst[|packages|].name == b;
    } else {
      assert |taskFirst| == |versionsFirst|;
      assert forall i :: 0 <= i < |taskFirst| ==> taskFirst[i] == versionsFirst[i];
    }
  }

  lemma HasAfterUpdate(packages: seq<PackageState>, name: string, task: Task, other: string,
                       stable: string, experiment: string)
    ensures Has(WithTask(packages, name, task), other) <==> other == name || Has(packages, other)
    ensures Has(WithVersions(packages, name, stable, experiment), other) <==> other == name || Has(packages, other)
  {
    var all := Ensure(packages, name);
    var withTask := WithTask(packages, name, task);
    var withVersions := WithVersions(packages, name, stable, experiment);
    assert Has(all, name) by { if !Has(packages, name) { assert all[|packages|].name == name; } }
    if Has(packages, other) {
      var i :| 0 <= i < |packages| && packages[i].name == other;
      assert withTask[i].name == other && withVersions[i].name == other;
    }
    var i :| 0 <= i < |all| && all[i].name == name;
    assert withTask[i].name == name && withVersions[i].name == name;
  }

  // ---------------------------------------------------------------- the repair

  /** What the repair does to one package. */
  function Repaired(package: PackageState, experimentID: string, startTaskID: string): PackageState {
    if package.experimentConfig != experimentID then package
    else package.(task := if startTaskID != "" then Some(Task(startTaskID, ERROR)) else package.task,
                  experimentConfig := "")
  }

  /** One iteration of the repair replaces one entry in place. */
  lemma RepairOne(packages: seq<PackageState>, k: nat, startTaskID: string)
    requires UniqueNames(packages) && k < |packages|
    ensures var p := packages[k];
            var reported := if startTaskID != "" then WithTask(packages, p.name, Task(startTaskID, ERROR)) else packages;
            WithVersions(reported, p.name, p.stableConfig, "") ==
            packages[k := Repaired(p, p.experimentConfig, startTaskID)]
  {
    var p := packages[k];
    assert Has(packages, p.name);
    var reported := if startTaskID != "" then WithTask(packages, p.name, Task(startTaskID, ERROR)) else packages;
    assert reported[k].name == p.name;
    assert forall i :: 0 <= i < |packages| ==> packages[i].name == p.name ==> i == k;
  }

  predicate RepairedUpTo(original: seq<PackageState>, packages: seq<PackageState>, k: nat, experimentID: string,
                         startTaskID: string)
    requires k <= |original|
  {
    && |packages| == |original|
    && (forall i :: 0 <= i < k ==> packages[i] == Repaired(original[i], experimentID, startTaskID))
    && (forall i :: k <= i < |original| ==> packages[i] == original[i])
  }

  lemma RepairedNames(original: seq<PackageState>, packages: seq<PackageState>, k: nat, experimentID: string,
                      startTaskID: string)
    requires k <= |original| && UniqueNames(original)
    requires RepairedUpTo(original, packages, k, experimentID, startTaskID)
    ensures UniqueNames(packages)
  {
    assert forall i :: 0 <= i < |original| ==> packages[i].name == original[i].name;
  }

  /** The loop over the list, seen as a whole: it repairs every package independently. */
  lemma {:induction false} RepairFrom(installer: Installer, original: seq<PackageState>, k: nat, experimentID: string,
                                      startTaskID: string)
    requires UniqueNames(original) && k <= |original|
    requires RepairedUpTo(original, installer.packages, k, experimentID, startTaskID)
    ensures RepairedUpTo(original, Repair(installer, original[k..], experimentID, startTaskID).packages, |original|,
                         experimentID, startTaskID)
    decreases |original| - k
  {
    if k < |original| {
      var todo := original[k..];
      assert todo[0] == original[k] && todo[1..] == original[k + 1..];
      RepairedNames(original, installer.packages, k, experimentID, startTaskID);
      var p := original[k];
      if p.experimentConfig != experimentID {
        RepairFrom(installer, original, k + 1, experimentID, startTaskID);
      } else {
        RepairOne(installer.packages, k, startTaskID);
        var reported := if startTaskID != "" then SetTaskState(installer, p.name, startTaskID, ERROR) else installer;
        var next := SetVersions(reported, p.name, p.stableConfig, "");
        assert next.packages == installer.packages[k := Repaired(p, experimentID, startTaskID)];
        RepairFrom(next, original, k + 1, experimentID, startTaskID);
      }
    }
  }

  /** Repair acts on every package independently, whatever the experiment ID. */
  lemma RepairPointwise(installer: Installer, experimentID: string, startTaskID: string)
    requires UniqueNames(installer.packages)
    ensures var before := installer.packages;
            var after := Repair(installer, before, experimentID, startTaskID).packages;
            && |after| == |before|
            && UniqueNames(after)
            && forall i :: 0 <= i < |before| ==> after[i] == Repaired(before[i], experimentID, startTaskID)
  {
    assert installer.packages[0..] == installer.packages;
    RepairFrom(installer, installer.packages, 0, experimentID, startTaskID);
    RepairedNames(installer.packages, Repair(installer, installer.packages, experimentID, startTaskID).packages,
                  |installer.packages|, experimentID, startTaskID);
  }

  /** For a real experiment ID: every package that reported it is cleared, every stable version
      is kept, other packages are untouched, and a second repair changes and reports nothing. */
  lemma RepairClearsOnce(installer: Installer, experimentID: string, startTaskID: string)
    requires UniqueNames(installer.packages) && experimentID != ""
    ensures var before := installer.packages;
            var after := Repair(installer, before, experimentID, startTaskID);
            && |after.packages| == |before|
            && (forall i :: 0 <= i < |before| ==>
                  && after.packages[i].experimentConfig != experimentID
                  && after.packages[i].stableConfig == before[i].stableConfig
                  && (before[i].experimentConfig != experimentID ==> after.packages[i] == before[i]))
            && Repair(after, after.packages, experimentID, startTaskID) == after
  {
    RepairPointwise(installer, experimentID, startTaskID);
    var after := Repair(installer, installer.packages, experimentID, startTaskID);
    RepairOfCleared(after, after.packages, experimentID, startTaskID);
  }

  lemma {:induction false} RepairOfCleared(installer: Installer, todo: seq<PackageState>, experimentID: string,
                                           startTaskID: string)
    requires forall i :: 0 <= i < |todo| ==> todo[i].experimentConfig != experimentID
    ensures Repair(installer, todo, experimentID, startTaskID) == installer
    decreases |todo|
  {
    if todo != [] {
      RepairOfCleared(installer, todo[1..], experimentID, startTaskID);
    }
  }

  /** With a blank experiment ID the repair is not about an experiment at all: it reports the
      start task as failed on exactly the packages that run no experiment. */
  lemma BlankRepairHitsIdlePackages(installer: Installer, startTaskID: string, i: nat)
    requires UniqueNames(installer.packages) && i < |installer.packages| && startTaskID != ""
    requires installer.packages[i].task != Some(Task(startTaskID, ERROR))
    ensures var after := Repair(installer, installer.packages, "", startTaskID).packages;
            |after| == |installer.packages|
            && (after[i].task == Some(Task(startTaskID, ERROR)) <==> installer.packages[i].experimentConfig == "")
  {
    RepairPointwise(installer, "", startTaskID);
  }

  // ---------------------------------------------------------------- the loops

  /** The installer state as the Remote Config client holds it: a list the daemon reads,
      rebuilds and writes back. `log` is the history of writes. */
  class InstallerState {
    var packages: seq<PackageState>
    ghost var log: seq<Report>

    ghost function Value(): Installer
      reads this
    {
      Installer(packages, log)
    }

    constructor (initial: seq<PackageState>)
      ensures packages == initial && log == []
    {
      packages := initial;
      log := [];
    }

    method UpdateTask(name: string, taskID: string, state: TaskState)
      modifies this
      ensures Value() == SetTaskState(old(Value()), name, taskID, state)
    {
      var task := Task(taskID, state);
      var updated := [];
      var found := false;
      for i := 0 to |packages|
        invariant packages == old(packages) && log == old(log)
        invariant |updated| == i
        invariant found <==> exists j :: 0 <= j < i && packages[j].name == name
        invariant forall j :: 0 <= j < i ==>
                    updated[j] == if packages[j].name == name then packages[j].(task := Some(task)) else packages[j]
      {
        if packages[i].name == name {
          updated := updated + [packages[i].(task := Some(task))];
          found := true;
        } else {
          updated := updated + [packages[i]];
        }
      }
      if !found {
        updated := updated + [BlankPackage(name).(task := Some(task))];
      }
      assert updated == WithTask(packages, name, task);
      packages := updated;
      log := log + [TaskReport(name, taskID, state)];
    }

    method UpdateVersions(name: string, stable: string, experiment: string)
      modifies this
      ensures Value() == SetVersions(old(Value()), name, stable, experiment)
    {
      var updated := [];
      var found := false;
      for i := 0 to |packages|
        invariant packages == old(packages) && log == old(log)
        invariant |updated| == i
        invariant found <==> exists j :: 0 <= j < i && packages[j].name == name
        invariant forall j :: 0 <= j < i ==>
                    updated[j] == if packages[j].name == name
                                  then packages[j].(stableConfig := stable, experimentConfig := experiment)
                                  else packages[j]
      {
        if packages[i].name == name {
          updated := updated + [packages[i].(stableConfig := stable, experimentConfig := experiment)];
          found := true;
        } else {
          updated := updated + [packages[i]];
        }
      }
      if !found {
        updated := updated + [BlankPackage(name).(stableConfig := stable, experimentConfig := experiment)];
      }
      assert updated == WithVersions(packages, name, stable, experiment);
      packages := updated;
      log := log + [VersionReport(name, stable, experiment)];
    }

    method ReadVersions(name: string) returns (stable: string, experiment: string)
      ensures (stable, experiment) == Versions(packages, name)
    {
      for i := 0 to |packages|
        invariant Versions(packages, name) == Versions(packages[i..], name)
      {
        if packages[i].name == name {
          return packages[i].stableConfig, packages[i].experimentConfig;
        }
        assert packages[i..][1..] == packages[i + 1..];
      }
      return "", "";
    }

    /** The repair loop, over the list as it was when the loop began. */
    method RepairTerminated(experimentID: string, startTaskID: string)
      modifies this
      ensures Value() == Repair(old(Value()), old(packages), experimentID, startTaskID)
    {
      var todo := packages;
      for i := 0 to |todo|
        invariant todo == old(packages)
        invariant Repair(Value(), todo[i..], experimentID, startTaskID)
               == Repair(old(Value()), old(packages), experimentID, startTaskID)
      {
        assert todo[i..][0] == todo[i] && todo[i..][1..] == todo[i + 1..];
        if todo[i].experimentConfig == experimentID {
          if startTaskID != "" {
            UpdateTask(todo[i].name, startTaskID, ERROR);
          }
          UpdateVersions(todo[i].name, todo[i].stableConfig, "");
        }
      }
    }
  }
}
