/** `cf dev start` (StartCmd.Run), as its test fixes it: which VM to start, the precondition
    errors, and the order of the calls on the VM, the OVA download command and VirtualBox.
    The answers of those collaborators are parameters. */
module StartCommand {
  import opened Results

  const CustomVMName := "pcfdev-custom"
  const OldVMError := "old version of PCF Dev already running, please run `cf dev destroy` to continue"
  const CustomOVAError := "you must destroy your existing VM to use a custom OVA"

  /** vm.StartOpts as far as the command looks at it: an empty `ovaPath` means the default OVA. */
  datatype StartOpts = StartOpts(cpus: nat, memory: nat, ovaPath: string)

  /** The command's collaborator calls, in order. */
  datatype Call =
    | GetVMName
    | BuildVM(name: string)
    | VerifyStartOpts(opts: StartOpts)
    | RunDownload
    | Start(opts: StartOpts)
    | Provision

  /** The VM to start, given the name of the VM VirtualBox already has ("" for none), the
      default VM name and the custom OVA path ("" for none). */
  function TargetVM(existing: string, defaultName: string, ovaPath: string): (r: Result<string>)
    requires defaultName != CustomVMName
    ensures r == Ok(CustomVMName) <==>
      (ovaPath != "" && (existing == "" || existing == CustomVMName)) || (ovaPath == "" && existing == CustomVMName)
    ensures r == Ok(defaultName) <==> ovaPath == "" && (existing == "" || existing == defaultName)
    ensures r == Err(CustomOVAError) <==> ovaPath != "" && existing != "" && existing != CustomVMName
    ensures r == Err(OldVMError) <==>
      ovaPath == "" && existing != "" && existing != defaultName && existing != CustomVMName
  {
    if ovaPath != "" then
      if existing == "" || existing == CustomVMName then Ok(CustomVMName) else Err(CustomOVAError)
    else if existing == CustomVMName then Ok(CustomVMName)
    else if existing == "" || existing == defaultName then Ok(defaultName)
    else Err(OldVMError)
  }

  /** The calls made on the chosen VM when every one of them succeeds: with the provision flag,
      only `Provision`; otherwise verify the options, download the OVA unless the VM is the
      custom one, and start. */
  function Steps(name: string, opts: StartOpts, provision: bool): (r: seq<Call>)
    ensures |r| >= 2 && r[0] == BuildVM(name)
    ensures RunDownload in r <==> !provision && name != CustomVMName
    ensures provision <==> r[|r| - 1] == Provision
  {
    if provision then [BuildVM(name), Provision]
    else [BuildVM(name), VerifyStartOpts(opts)] + (if name != CustomVMName then [RunDownload] else []) + [Start(opts)]
  }

  datatype Outcome = Outcome(err: Option<string>, calls: seq<Call>)

  /** Makes `steps` in order and stops at the first that fails, returning its error unchanged. */
  function Execute(steps: seq<Call>, answer: Call -> Option<string>): (o: Outcome)
    ensures o.calls <= steps
    ensures o.err.None? <==> o.calls == steps && forall i :: 0 <= i < |steps| ==> answer(steps[i]).None?
    ensures o.err.Some? ==>
      && o.calls != []
      && o.err == answer(o.calls[|o.calls| - 1])
      && forall i :: 0 <= i < |o.calls| - 1 ==> answer(o.calls[i]).None?
  {
    if steps == [] then Outcome(None, [])
    else
      match answer(steps[0])
      case Some(e) => Outcome(Some(e), [steps[0]])
      case None =>
        var rest := Execute(steps[1..], answer);
        assert forall i :: 1 <= i < |steps| ==> steps[i] == steps[1..][i - 1];
        Outcome(rest.err, [steps[0]] + rest.calls)
  }

  /** StartCmd.Run. `vmName` is the answer of `VBox.GetVMName`; `answer` gives the error, if
      any, of every later call. */
  method Run(defaultName: string, opts: StartOpts, provision: bool, vmName: Result<string>,
             answer: Call -> Option<string>) returns (err: Option<string>, calls: seq<Call>)
    requires defaultName != CustomVMName
    ensures |calls| >= 1 && calls[0] == GetVMName
    ensures vmName.Err? ==> err == Some(vmName.error) && calls == [GetVMName]
    ensures vmName.Ok? && TargetVM(vmName.value, defaultName, opts.ovaPath).Err? ==>
      err == Some(TargetVM(vmName.value, defaultName, opts.ovaPath).error) && calls == [GetVMName]
    ensures vmName.Ok? && TargetVM(vmName.value, defaultName, opts.ovaPath).Ok? ==>
      var o := Execute(Steps(TargetVM(vmName.value, defaultName, opts.ovaPath).value, opts, provision), answer);
      err == o.err && calls == [GetVMName] + o.calls
  {
    calls := [GetVMName];
    if vmName.Err? {
      return Some(vmName.error), calls;
    }
    var target := TargetVM(vmName.value, defaultName, opts.ovaPath);
    if target.Err? {
      return Some(target.error), calls;
    }
    var name := target.value;
    var rest;
    err, rest := RunOn(name, opts, provision, answer);
    calls := calls + rest;
  }

  /** The calls of StartCmd.Run once the VM to start is chosen. */
  method RunOn(name: string, opts: StartOpts, provision: bool, answer: Call -> Option<string>)
    returns (err: Option<string>, calls: seq<Call>)
    ensures Outcome(err, calls) == Execute(Steps(name, opts, provision), answer)
  {
    ghost var steps := Steps(name, opts, provision);
    calls := [BuildVM(name)];
    err := answer(BuildVM(name));
    if err.Some? {
      ExecuteFirstFails(steps, answer);
      return;
    }
    ExecuteCons(steps, answer);
    var rest;
    if provision {
      assert steps[1..] == [Provision];
      err, rest := ProvisionVM(answer);
    } else {
      err, rest := StartVM(name, opts, answer);
    }
    calls := calls + rest;
  }

  /** The provisioning branch, after the VM is built. */
  method ProvisionVM(answer: Call -> Option<string>) returns (err: Option<string>, calls: seq<Call>)
    ensures Outcome(err, calls) == Execute([Provision], answer)
  {
    calls := [Provision];
    err := answer(Provision);
    assert [Provision][1..] == [];
  }

  /** The starting branch, after the VM is built: verify the options, download unless custom,
      start; each error is returned at once. */
  method StartVM(name: string, opts: StartOpts, answer: Call -> Option<string>)
    returns (err: Option<string>, calls: seq<Call>)
    ensures Outcome(err, calls) == Execute(Steps(name, opts, false)[1..], answer)
  {
    ghost var steps := Steps(name, opts, false)[1..];
    calls := [VerifyStartOpts(opts)];
    err := answer(VerifyStartOpts(opts));
    if err.Some? {
      ExecuteFirstFails(steps, answer);
      return;
    }
    ExecuteCons(steps, answer);
    ghost var rest := steps[1..];
    if name != CustomVMName {
      calls := calls + [RunDownload];
      err := answer(RunDownload);
      if err.Some? {
        ExecuteFirstFails(rest, answer);
        return;
      }
      ExecuteCons(rest, answer);
      rest := rest[1..];
    }
    assert rest == [Start(opts)];
    assert rest[1..] == [];
    calls := calls + [Start(opts)];
    err := answer(Start(opts));
  }

  lemma ExecuteFirstFails(steps: seq<Call>, answer: Call -> Option<string>)
    requires steps != [] && answer(steps[0]).Some?
    ensures Execute(steps, answer) == Outcome(answer(steps[0]), [steps[0]])
  {
  }

  lemma ExecuteCons(steps: seq<Call>, answer: Call -> Option<string>)
    requires steps != [] && answer(steps[0]).None?
    ensures Execute(steps, answer) ==
      Outcome(Execute(steps[1..], answer).err, [steps[0]] + Execute(steps[1..], answer).calls)
  {
  }

  /** A custom OVA, or an existing custom VM, is never downloaded over. */
  lemma CustomNeverDownloads(existing: string, defaultName: string, opts: StartOpts, provision: bool,
                             answer: Call -> Option<string>)
    requires defaultName != CustomVMName
    requires opts.ovaPath != "" || existing == CustomVMName
    requires TargetVM(existing, defaultName, opts.ovaPath).Ok?
    ensures RunDownload !in Execute(Steps(TargetVM(existing, defaultName, opts.ovaPath).value, opts, provision), answer).calls
  {
  }

  /** With the provision flag the options are not verified, nothing is downloaded and the VM is
      not started: the VM is built and provisioned, and the provisioning error is returned. */
  lemma ProvisionOnly(name: string, opts: StartOpts, answer: Call -> Option<string>)
    ensures var o := Execute(Steps(name, opts, true), answer);
      && (answer(BuildVM(name)).Some? ==> o == Outcome(answer(BuildVM(name)), [BuildVM(name)]))
      && (answer(BuildVM(name)).None? ==> o == Outcome(answer(Provision), [BuildVM(name), Provision]))
  {
    assert [BuildVM(name), Provision][1..] == [Provision];
    assert [Provision][1..] == [];
  }

  /** The default OVA with no VM yet: build the default VM, verify the options, download, start. */
  lemma DefaultStartOrder(defaultName: string, opts: StartOpts, answer: Call -> Option<string>)
    requires defaultName != CustomVMName && opts.ovaPath == ""
    requires forall c :: answer(c).None?
    ensures var name := TargetVM("", defaultName, opts.ovaPath);
      && name == Ok(defaultName)
      && Execute(Steps(defaultName, opts, false), answer)
           == Outcome(None, [BuildVM(defaultName), VerifyStartOpts(opts), RunDownload, Start(opts)])
  {
  }
}
