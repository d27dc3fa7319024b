/** vm/builder.go: `VBoxBuilder.VM` classifies an existing (or missing) VM into one of the
    states of package vm, from the answers of its collaborators.

    The VirtualBox status names are parameters (their values are not part of this model); the
    cases are tested in the order of the source's switch. The health check is an input: the
    (output, error) pair it produced. */
module VMBuilder {
  import opened Results
  import opened Text
  import FileSystem
  import opened VMEvents

  /** The states `VM` can build. Every state but `Invalid` carries the VM's config. */
  datatype VM =
    | NotCreated(config: VMConfig)
    | Running(config: VMConfig)
    | Unprovisioned(config: VMConfig)
    | Stopped(config: VMConfig)
    | Paused(config: VMConfig)
    | Saved(config: VMConfig)
    | Invalid(err: string)

  /** vbox.StatusNotCreated, StatusRunning, StatusStopped, StatusPaused, StatusSaved. */
  datatype StatusNames = StatusNames(notCreated: string, running: string, stopped: string,
                                     paused: string, saved: string)

  predicate Distinct(n: StatusNames)
  {
    && n.notCreated != n.running && n.notCreated != n.stopped && n.notCreated != n.paused
    && n.notCreated != n.saved && n.running != n.stopped && n.running != n.paused
    && n.running != n.saved && n.stopped != n.paused && n.stopped != n.saved && n.paused != n.saved
  }

  predicate IsKnown(status: string, n: StatusNames)
  {
    status in {n.notCreated, n.running, n.stopped, n.paused, n.saved}
  }

  /** The builder's collaborator calls, in order. */
  datatype Call = VMStatus(name: string) | VMConfigQuery(name: string) | Exists(path: string)
                | HealthCheck(ip: string, sshPort: string)

  /** What the health check produced: its output and its error. */
  datatype Health = Health(output: string, err: Option<string>)

  /** The answers of `VBox.VMStatus`, `VBox.VMConfig`, `FS.Exists` and the health check, by argument. */
  datatype Collaborators = Collaborators(
    status: string -> Result<string>,
    vmConfig: string -> Result<VMConfig>,
    dirExists: string -> Result<bool>,
    healthcheck: (string, string) -> Health)

  const PurgeError := "VM files need to be purged"
  const UnknownStateError := "vm in unknown state"

  datatype Lookup = Lookup(config: Result<VMConfig>, calls: seq<Call>)

  /** getVMConfig: a VM that was never created has a config holding only its name, and
      VirtualBox is asked for the config of any other VM. */
  function GetVMConfig(vmName: string, status: string, names: StatusNames,
                       vmConfig: string -> Result<VMConfig>): (r: Lookup)
    ensures r.calls == [] <==> status == names.notCreated
    ensures status == names.notCreated ==> r.config == Ok(VMConfig(vmName, "", "", ""))
    ensures status != names.notCreated ==> r.config == vmConfig(vmName) && r.calls == [VMConfigQuery(vmName)]
  {
    if status == names.notCreated then Lookup(Ok(VMConfig(vmName, "", "", "")), [])
    else Lookup(vmConfig(vmName), [VMConfigQuery(vmName)])
  }

  /** A running VM is provisioned when the trimmed health-check output is "ok" and the check
      reported no error. */
  predicate Healthy(h: Health)
  {
    TrimSpace(h.output) == "ok" && h.err.None?
  }

  datatype Built = Built(vm: Result<VM>, calls: seq<Call>)

  /** VBoxBuilder.VM. An error is returned only when the status query or the VM-directory
      check fails; every other outcome is a state. */
  function Build(vmName: string, vmDir: string, names: StatusNames, c: Collaborators): (r: Built)
    ensures r.calls != [] && r.calls[0] == VMStatus(vmName)
    ensures r.vm.Err? <==>
      || c.status(vmName).Err?
      || (c.status(vmName) == Ok(names.notCreated) && c.dirExists(FileSystem.Join(vmDir, vmName)).Err?)
  {
    match c.status(vmName)
    case Err(e) => Built(Err(e), [VMStatus(vmName)])
    case Ok(status) =>
      var lookup := GetVMConfig(vmName, status, names, c.vmConfig);
      var calls := [VMStatus(vmName)] + lookup.calls;
      match lookup.config
      case Err(e) => Built(Ok(Invalid(e)), calls)
      case Ok(config) =>
        if status == names.notCreated then
          var path := FileSystem.Join(vmDir, vmName);
          var checked := calls + [Exists(path)];
          match c.dirExists(path)
          case Err(e) => Built(Err(e), checked)
          case Ok(dirExists) =>
            if dirExists then Built(Ok(Invalid(PurgeError)), checked)
            else Built(Ok(NotCreated(config)), checked)
        else if status == names.running then
          var h := c.healthcheck(config.ip, config.sshPort);
          var probed := calls + [HealthCheck(config.ip, config.sshPort)];
          if Healthy(h) then Built(Ok(Running(config)), probed) else Built(Ok(Unprovisioned(config)), probed)
        else if status == names.stopped then Built(Ok(Stopped(config)), calls)
        else if status == names.paused then Built(Ok(Paused(config)), calls)
        else if status == names.saved then Built(Ok(Saved(config)), calls)
        else Built(Ok(Invalid(UnknownStateError)), calls)
  }

  /** A failing status query is the builder's error, and nothing else is asked. */
  lemma StatusErrorIsReturned(vmName: string, vmDir: string, names: StatusNames, c: Collaborators)
    requires c.status(vmName).Err?
    ensures Build(vmName, vmDir, names, c) == Built(Err(c.status(vmName).error), [VMStatus(vmName)])
  {
  }

  /** Every status but not-created asks VirtualBox for the config right after the status, and a
      failure there yields an `Invalid` state carrying that error instead of an error. */
  lemma ConfigIsQueriedUnlessNotCreated(vmName: string, vmDir: string, names: StatusNames, c: Collaborators)
    requires c.status(vmName).Ok? && c.status(vmName).value != names.notCreated
    ensures var r := Build(vmName, vmDir, names, c);
      |r.calls| >= 2 && r.calls[1] == VMConfigQuery(vmName)
    ensures c.vmConfig(vmName).Err? ==>
      Build(vmName, vmDir, names, c) == Built(Ok(Invalid(c.vmConfig(vmName).error)), [VMStatus(vmName), VMConfigQuery(vmName)])
  {
  }

  /** A VM that was never created: VirtualBox is not asked for its config; the check on its
      directory under the VM directory decides between an error, leftover files and `NotCreated`
      with a config holding only the name. */
  lemma NotCreatedOutcomes(vmName: string, vmDir: string, names: StatusNames, c: Collaborators)
    requires c.status(vmName) == Ok(names.notCreated)
    ensures var path := FileSystem.Join(vmDir, vmName);
      var r := Build(vmName, vmDir, names, c);
      && r.calls == [VMStatus(vmName), Exists(path)]
      && (c.dirExists(path).Err? ==> r.vm == Err(c.dirExists(path).error))
      && (c.dirExists(path) == Ok(true) ==> r.vm == Ok(Invalid(PurgeError)))
      && (c.dirExists(path) == Ok(false) ==> r.vm == Ok(NotCreated(VMConfig(vmName, "", "", ""))))
  {
  }

  /** A running VM is `Running` exactly when the health check of its IP and SSH port is
      healthy, and `Unprovisioned` otherwise. */
  lemma RunningIffHealthy(vmName: string, vmDir: string, names: StatusNames, c: Collaborators, config: VMConfig)
    requires Distinct(names)
    requires c.status(vmName) == Ok(names.running) && c.vmConfig(vmName) == Ok(config)
    ensures var h := c.healthcheck(config.ip, config.sshPort);
      && (Build(vmName, vmDir, names, c).vm == Ok(Running(config)) <==> Healthy(h))
      && (Build(vmName, vmDir, names, c).vm == Ok(Unprovisioned(config)) <==> !Healthy(h))
  {
  }

  /** Whitespace around the health-check output does not matter. */
  lemma PaddedOkIsHealthy(before: string, after: string)
    requires AllSpace(before) && AllSpace(after)
    ensures Healthy(Health(before + "ok" + after, None))
  {
    TrimSpaceOfFramed(before, "ok", after);
  }

  /** Stopped, paused and saved VMs become the state of that name, carrying the fetched config. */
  lemma QuiescentStates(vmName: string, vmDir: string, names: StatusNames, c: Collaborators, config: VMConfig)
    requires Distinct(names)
    requires c.vmConfig(vmName) == Ok(config)
    ensures c.status(vmName) == Ok(names.stopped) ==> Build(vmName, vmDir, names, c).vm == Ok(Stopped(config))
    ensures c.status(vmName) == Ok(names.paused) ==> Build(vmName, vmDir, names, c).vm == Ok(Paused(config))
    ensures c.status(vmName) == Ok(names.saved) ==> Build(vmName, vmDir, names, c).vm == Ok(Saved(config))
  {
  }

  /** An unknown status is never an error: it is an `Invalid` state, reporting the unknown state
      unless the config lookup failed first. */
  lemma UnknownStatusIsInvalid(vmName: string, vmDir: string, names: StatusNames, c: Collaborators)
    requires c.status(vmName).Ok? && !IsKnown(c.status(vmName).value, names)
    ensures Build(vmName, vmDir, names, c).vm.Ok?
    ensures Build(vmName, vmDir, names, c).vm.value.Invalid?
    ensures c.vmConfig(vmName).Ok? ==> Build(vmName, vmDir, names, c).vm == Ok(Invalid(UnknownStateError))
  {
  }
}
