/** The verbs of a suspended VM (`vm.Suspended`), as its test pins them down. Each verb returns
    its error and the calls it made, in order; the answers of VirtualBox are parameters. */
module SuspendedVM {
  import opened Results
  import opened VMEvents

  const ResumingVM := "Resuming VM..."
  const ResumeErrorPrefix := "failed to resume VM: "

  datatype Suspended = Suspended(name: string, domain: string, ip: string, sshPort: string, config: VMConfig)
  {
    method Suspend() returns (err: Option<VMError>, events: seq<Event>)
      ensures err == None && events == [Say("Your VM is suspended.")]
      ensures VMCalls(events) == []
    {
      events := [Say("Your VM is suspended.")];
      err := None;
    }

    /** A suspended VM cannot be stopped: it says to resume first and touches nothing. */
    method Stop() returns (err: Option<VMError>, events: seq<Event>)
      ensures err == None
      ensures events == [Say("Your VM is currently suspended. You must resume your VM with `cf dev resume` to shut it down.")]
      ensures VMCalls(events) == []
    {
      events := [Say("Your VM is currently suspended. You must resume your VM with `cf dev resume` to shut it down.")];
      err := None;
    }

    /** Resume says so, then resumes the VM by name; `resumeVM` is the error of
        `VBox.ResumeVM`, which is returned with a prefix. */
    method Resume(resumeVM: Option<string>) returns (err: Option<VMError>, events: seq<Event>)
      ensures events == [Say(ResumingVM), ResumeVM(name)]
      ensures err.Some? <==> resumeVM.Some?
      ensures resumeVM.Some? ==> err == Some(Plain(ResumeErrorPrefix + resumeVM.value))
    {
      events := [Say(ResumingVM)];
      events := events + [ResumeVM(name)];
      if resumeVM.Some? {
        return Some(Plain(ResumeErrorPrefix + resumeVM.value)), events;
      }
      err := None;
    }

    /** Starting a suspended VM resumes it. */
    method Start(resumeVM: Option<string>) returns (err: Option<VMError>, events: seq<Event>)
      ensures events == [Say(ResumingVM), ResumeVM(name)]
      ensures err.Some? <==> resumeVM.Some?
      ensures resumeVM.Some? ==> err == Some(Plain(ResumeErrorPrefix + resumeVM.value))
    {
      err, events := Resume(resumeVM);
    }

    method Status() returns (events: seq<Event>)
      ensures events == [Say("Suspended")]
      ensures VMCalls(events) == []
    {
      events := [Say("Suspended")];
    }

    /** Destroy hands the VM to `VBox.DestroyVM`; its error is returned unchanged. */
    method Destroy(destroyVM: Option<string>) returns (err: Option<VMError>, events: seq<Event>)
      ensures events == [DestroyVM(name)]
      ensures err.Some? <==> destroyVM.Some?
      ensures destroyVM.Some? ==> err == Some(Plain(destroyVM.value))
    {
      events := [DestroyVM(name)];
      err := if destroyVM.Some? then Some(Plain(destroyVM.value)) else None;
    }

    /** GetConfig hands back the config the VM was built with. */
    function GetConfig(): (c: VMConfig)
      ensures c == config
    {
      config
    }
  }

  /** Resuming says one thing and then makes exactly one VM call, the resume of this VM. */
  lemma ResumeTrace(vm: Suspended)
    ensures Messages([Say(ResumingVM), ResumeVM(vm.name)]) == [ResumingVM]
    ensures VMCalls([Say(ResumingVM), ResumeVM(vm.name)]) == [ResumeVM(vm.name)]
  {
    assert [Say(ResumingVM), ResumeVM(vm.name)] == [Say(ResumingVM)] + [ResumeVM(vm.name)];
    OneEvent(Say(ResumingVM));
    OneEvent(ResumeVM(vm.name));
    MessagesAppend([Say(ResumingVM)], [ResumeVM(vm.name)]);
    VMCallsAppend([Say(ResumingVM)], [ResumeVM(vm.name)]);
  }
}
