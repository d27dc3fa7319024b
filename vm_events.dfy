/** The vocabulary shared by the VM states of package vm: the VM's settings, the collaborator
    calls a verb makes (the `UI`, `VBox`, `SSH` and requirements-checker interfaces) recorded as
    events in the order they happen, and the errors the verbs return. */
module VMEvents {

  /** config.VMConfig, as far as the verbs use it. */
  datatype VMConfig = VMConfig(name: string, domain: string, ip: string, sshPort: string)

  datatype Event =
    | Say(message: string)
    | Confirm(prompt: string)
    | CheckRequirements
    | StartVM(name: string, ip: string, sshPort: string, domain: string)
    | RunSSHCommand(command: string, sshPort: string, timeoutSeconds: nat)
    | ResumeVM(name: string)
    | DestroyVM(name: string)

  /** Errors returned by the verbs: the two wrapper types of package vm, and plain errors. */
  datatype VMError = StartVMError(cause: string) | ProvisionVMError(cause: string) | Plain(message: string)

  /** A call that reaches VirtualBox or the VM itself (as opposed to talking to the user). */
  predicate TouchesVM(e: Event)
  {
    e.StartVM? || e.RunSSHCommand? || e.ResumeVM? || e.DestroyVM?
  }

  /** The messages said to the user, in order. */
  function Messages(events: seq<Event>): (r: seq<string>)
    ensures |r| <= |events|
  {
    if events == [] then []
    else (if events[0].Say? then [events[0].message] else []) + Messages(events[1..])
  }

  /** The calls that reach VirtualBox or the VM, in order. */
  function VMCalls(events: seq<Event>): (r: seq<Event>)
    ensures |r| <= |events|
  {
    if events == [] then []
    else (if TouchesVM(events[0]) then [events[0]] else []) + VMCalls(events[1..])
  }

  lemma OneEvent(e: Event)
    ensures Messages([e]) == if e.Say? then [e.message] else []
    ensures VMCalls([e]) == if TouchesVM(e) then [e] else []
  {
    assert [e][1..] == [];
  }

  lemma {:induction false} MessagesAppend(a: seq<Event>, b: seq<Event>)
    ensures Messages(a + b) == Messages(a) + Messages(b)
  {
    if a == [] {
      assert a + b == b;
    } else {
      var head := if a[0].Say? then [a[0].message] else [];
      assert (a + b)[0] == a[0] && (a + b)[1..] == a[1..] + b;
      MessagesAppend(a[1..], b);
      calc {
        Messages(a + b);
        head + Messages(a[1..] + b);
        head + (Messages(a[1..]) + Messages(b));
        (head + Messages(a[1..])) + Messages(b);
      }
    }
  }

  lemma {:induction false} VMCallsAppend(a: seq<Event>, b: seq<Event>)
    ensures VMCalls(a + b) == VMCalls(a) + VMCalls(b)
  {
    if a == [] {
      assert a + b == b;
    } else {
      var head := if TouchesVM(a[0]) then [a[0]] else [];
      assert (a + b)[0] == a[0] && (a + b)[1..] == a[1..] + b;
      VMCallsAppend(a[1..], b);
      calc {
        VMCalls(a + b);
        head + VMCalls(a[1..] + b);
        head + (VMCalls(a[1..]) + VMCalls(b));
        (head + VMCalls(a[1..])) + VMCalls(b);
      }
    }
  }
}
