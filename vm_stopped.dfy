/** vm/stopped.go: the verbs of a VM that exists but is powered off. Each verb returns its
    error and the calls it made, in order; the answers of the collaborators are parameters. */
module StoppedVM {
  import opened Results
  import opened VMEvents

  const StartingVM := "Starting VM..."
  const ProvisioningVM := "Provisioning VM..."
  const NowRunning := "PCF Dev is now running"
  const LowMemoryPrompt := "Less than 3 GB of memory detected, continue (y/N): "
  const AdminPasswordHash := "'$2a$04$EpJtIJ8w6hfCwbKYBkn3t.GCY18Pk6s7yN66y37fSJlLuDuMkdHtS'"
  /** The provisioning command gets two minutes. */
  const ProvisionTimeoutSeconds := 120

  /** The command that provisions the VM for `domain` at `ip`. */
  function ProvisionCommand(domain: string, ip: string): string
  {
    "sudo /var/pcfdev/run " + domain + " " + ip + " " + AdminPasswordHash
  }

  datatype Stopped = Stopped(name: string, domain: string, ip: string, sshPort: string)
  {
    /** Stopping a stopped VM only says so. */
    method Stop() returns (err: Option<VMError>, events: seq<Event>)
      ensures err == None && events == [Say("PCF Dev is stopped")]
      ensures VMCalls(events) == []
    {
      events := [Say("PCF Dev is stopped")];
      err := None;
    }

    /** The calls `Start` makes before starting the VM: the requirements check, and the
        low-memory prompt when the check failed. */
    static function Preflight(requirements: Option<string>): (r: seq<Event>)
      ensures |r| >= 1 && r[0] == CheckRequirements && VMCalls(r) == []
    {
      [CheckRequirements] + (if requirements.Some? then [Confirm(LowMemoryPrompt)] else [])
    }

    /** The calls of a start that gets as far as starting the VM. */
    function Started(): seq<Event>
    {
      [Say(StartingVM), StartVM(name, ip, sshPort, domain)]
    }

    /** ... and then as far as running the provisioning command. */
    function Provisioned(): seq<Event>
    {
      Started() + [Say(ProvisioningVM), RunSSHCommand(ProvisionCommand(domain, ip), sshPort, ProvisionTimeoutSeconds)]
    }

    /** Start. `requirements` is the requirements checker's error, `confirm` the user's answer
        to a prompt, and `startVM`/`provision` the errors of `VBox.StartVM` and of the
        provisioning command. A declined prompt exits quietly; otherwise the VM is started and
        then provisioned, stopping at the first failure with its wrapper error. */
    method Start(requirements: Option<string>, confirm: string -> bool,
                 startVM: Option<string>, provision: Option<string>)
      returns (err: Option<VMError>, events: seq<Event>)
      ensures requirements.Some? && !confirm(LowMemoryPrompt) ==>
        err == None && events == Preflight(requirements) + [Say("Exiting...")]
      ensures requirements.None? || confirm(LowMemoryPrompt) ==>
        && (startVM.Some? ==> err == Some(StartVMError(startVM.value)) && events == Preflight(requirements) + Started())
        && (startVM.None? && provision.Some? ==>
              err == Some(ProvisionVMError(provision.value)) && events == Preflight(requirements) + Provisioned())
        && (startVM.None? && provision.None? ==>
              err == None && events == Preflight(requirements) + Provisioned() + [Say(NowRunning)])
      ensures Say(NowRunning) in events <==> err == None && StartVM(name, ip, sshPort, domain) in events
    {
      events := [CheckRequirements];
      if requirements.Some? {
        events := events + [Confirm(LowMemoryPrompt)];
        if !confirm(LowMemoryPrompt) {
          events := events + [Say("Exiting...")];
          return None, events;
        }
      }
      events := events + [Say(StartingVM), StartVM(name, ip, sshPort, domain)];
      if startVM.Some? {
        return Some(StartVMError(startVM.value)), events;
      }
      events := events + [Say(ProvisioningVM)];
      events := events + [RunSSHCommand(ProvisionCommand(domain, ip), sshPort, ProvisionTimeoutSeconds)];
      if provision.Some? {
        return Some(ProvisionVMError(provision.value)), events;
      }
      events := events + [Say(NowRunning)];
      err := None;
    }

    method Status() returns (events: seq<Event>)
      ensures events == [Say("Stopped")]
      ensures VMCalls(events) == []
    {
      events := [Say("Stopped")];
    }

    /** Destroy hands the VM to `VBox.DestroyVM` and returns its error unchanged. */
    method Destroy(destroyVM: Option<string>) returns (err: Option<VMError>, events: seq<Event>)
      ensures events == [DestroyVM(name)]
      ensures err.Some? <==> destroyVM.Some?
      ensures destroyVM.Some? ==> err == Some(Plain(destroyVM.value))
    {
      events := [DestroyVM(name)];
      err := if destroyVM.Some? then Some(Plain(destroyVM.value)) else None;
    }

    method Suspend() returns (err: Option<VMError>, events: seq<Event>)
      ensures err == None && events == [Say("Your VM is currently stopped and cannot be suspended.")]
      ensures VMCalls(events) == []
    {
      events := [Say("Your VM is currently stopped and cannot be suspended.")];
      err := None;
    }

    method Resume() returns (err: Option<VMError>, events: seq<Event>)
      ensures err == None && events == [Say("Your VM is currently stopped. Only a suspended VM can be resumed.")]
      ensures VMCalls(events) == []
    {
      events := [Say("Your VM is currently stopped. Only a suspended VM can be resumed.")];
      err := None;
    }
  }

  /** A start that fails to start the VM never runs the provisioning command. */
  lemma FailedStartDoesNotProvision(vm: Stopped, requirements: Option<string>)
    ensures VMCalls(Stopped.Preflight(requirements) + vm.Started()) == [StartVM(vm.name, vm.ip, vm.sshPort, vm.domain)]
  {
    var start := StartVM(vm.name, vm.ip, vm.sshPort, vm.domain);
    assert vm.Started() == [Say(StartingVM)] + [start];
    OneEvent(Say(StartingVM));
    OneEvent(start);
    VMCallsAppend([Say(StartingVM)], [start]);
    VMCallsAppend(Stopped.Preflight(requirements), vm.Started());
  }

  /** A start that comes up says the three progress messages, in order. */
  lemma SuccessfulStartMessages(vm: Stopped, requirements: Option<string>)
    ensures Messages(Stopped.Preflight(requirements) + vm.Provisioned() + [Say(NowRunning)])
         == Messages(Stopped.Preflight(requirements)) + [StartingVM, ProvisioningVM, NowRunning]
  {
    var pre := Stopped.Preflight(requirements);
    var start := StartVM(vm.name, vm.ip, vm.sshPort, vm.domain);
    var run := RunSSHCommand(ProvisionCommand(vm.domain, vm.ip), vm.sshPort, ProvisionTimeoutSeconds);
    var t2 := vm.Started();
    var t3 := t2 + [Say(ProvisioningVM)];
    var t4 := vm.Provisioned();
    assert Messages(t2) == [StartingVM] by {
      assert t2 == [Say(StartingVM)] + [start];
      OneEvent(Say(StartingVM));
      OneEvent(start);
      MessagesAppend([Say(StartingVM)], [start]);
    }
    assert Messages(t3) == [StartingVM, ProvisioningVM] by {
      OneEvent(Say(ProvisioningVM));
      MessagesAppend(t2, [Say(ProvisioningVM)]);
    }
    assert Messages(t4) == [StartingVM, ProvisioningVM] by {
      assert t4 == t3 + [run];
      OneEvent(run);
      MessagesAppend(t3, [run]);
    }
    assert Messages(t4 + [Say(NowRunning)]) == [StartingVM, ProvisioningVM, NowRunning] by {
      OneEvent(Say(NowRunning));
      MessagesAppend(t4, [Say(NowRunning)]);
    }
    MessagesAppend(pre, t4 + [Say(NowRunning)]);
    assert pre + t4 + [Say(NowRunning)] == pre + (t4 + [Say(NowRunning)]);
  }

  /** A start that comes up calls the VM twice: the start, then the provisioning command, which
      embeds the domain and then the IP. */
  lemma SuccessfulStartVMCalls(vm: Stopped, requirements: Option<string>)
    ensures VMCalls(Stopped.Preflight(requirements) + vm.Provisioned() + [Say(NowRunning)])
         == [StartVM(vm.name, vm.ip, vm.sshPort, vm.domain),
             RunSSHCommand(ProvisionCommand(vm.domain, vm.ip), vm.sshPort, ProvisionTimeoutSeconds)]
  {
    var pre := Stopped.Preflight(requirements);
    var start := StartVM(vm.name, vm.ip, vm.sshPort, vm.domain);
    var run := RunSSHCommand(ProvisionCommand(vm.domain, vm.ip), vm.sshPort, ProvisionTimeoutSeconds);
    var t2 := vm.Started();
    var t3 := t2 + [Say(ProvisioningVM)];
    var t4 := vm.Provisioned();
    assert VMCalls(t2) == [start] by {
      assert t2 == [Say(StartingVM)] + [start];
      OneEvent(Say(StartingVM));
      OneEvent(start);
      VMCallsAppend([Say(StartingVM)], [start]);
    }
    assert VMCalls(t3) == [start] by {
      OneEvent(Say(ProvisioningVM));
      VMCallsAppend(t2, [Say(ProvisioningVM)]);
    }
    assert VMCalls(t4) == [start, run] by {
      assert t4 == t3 + [run];
      OneEvent(run);
      VMCallsAppend(t3, [run]);
    }
    assert VMCalls(t4 + [Say(NowRunning)]) == [start, run] by {
      OneEvent(Say(NowRunning));
      VMCallsAppend(t4, [Say(NowRunning)]);
    }
    VMCallsAppend(pre, t4 + [Say(NowRunning)]);
    assert pre + t4 + [Say(NowRunning)] == pre + (t4 + [Say(NowRunning)]);
  }
}
