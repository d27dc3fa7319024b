# pcfdev-cli: decision and state-transition rules, in Dafny

pcfdev-cli is a `cf` CLI plugin that runs PCF Dev in a local VirtualBox VM. Almost everything it
does goes through VBoxManage, SSH or HTTP. This project models the rules that sit on top of those
collaborators and proves what they promise. The collaborators' answers become parameters: a
`Result`/`Option` for a single answer, or a function from argument to answer. Every call the code
makes is returned as a trace (`calls` or `events`) in the order it is made.

The modules are:

- `FileSystem` (`fs.dfy`): the file helpers of `fs/fs.go` over a file table (a map from path to
  bytes, plus the set of directories). The in-place operations are methods of the `FileTable`
  class.
- `Config` (`config.dfy`): default memory sizing, whitespace stripping, proxy and home lookup, and
  the paths `New` derives (`config/config.go`).
- `ConfirmUI` (`ui.dfy`): the yes/no prompt of `plugin/non_translating_ui.go`.
- `AddressPicker` (`picker.dfy`): the first-fit choice of a host-only subnet (`address/picker.go`).
- `VMBuilder` (`vm_builder.dfy`): the classification of a VM into its state (`vm/builder.go`).
- `StoppedVM` and `SuspendedVM` (`vm_stopped.dfy`, `vm_suspended.dfy`): the verbs of a stopped VM
  (`vm/stopped.go`) and of a suspended VM, as `vm/suspended_test.go` fixes them. `VMEvents`
  (`vm_events.dfy`) holds the events and errors the two share.
- `Downloader` (`downloader.dfy`): the resumable OVA download with one retry, as
  `downloader/downloader_test.go` fixes it. It works on a `FileSystem.FileTable`.
- `StartCommand` (`start_cmd.dfy`): `cf dev start`, as `plugin/cmd/start_test.go` fixes it.
- `Text` (`text.dfy`) holds Go's `unicode.IsSpace` and `strings.TrimSpace`. `Results`
  (`results.dfy`) holds `Option` and `Result`.

Two of the core components, `Suspended` and the downloader, are known only through their tests.
The model does what the tests require and nothing beyond it. Where a test leaves a detail open,
the choice made is listed under "Left out".

Where a source file and its test disagree, the model follows the code. `fs/fs_test.go` expects
"could not read" from `MD5` and `Length`, but `fs/fs.go` says "failed to open" and
"failed to read". The model uses the `fs/fs.go` texts.

## Model

| member | source | states |
|---|---|---|
| FileSystem.Exists | fs/fs.go:14-22 | A missing path is `Ok(false)` and a present one `Ok(true)`, each iff no stat error; any other stat error is returned. |
| FileSystem.Length | fs/fs.go:88-101 | Succeeds iff the file exists and can be read, and then gives its byte count. |
| FileSystem.MD5 | fs/fs.go:72-86 | Succeeds iff the file exists and can be read, and then gives the digest of its contents. |
| FileSystem.FileInSet | fs/fs.go:111-118 | True iff the name equals some element of the list exactly. |
| FileSystem.Appended | fs/fs.go:24-35 | Appending adds the bytes to the end of an existing file, or creates it; no other file changes. |
| FileSystem.AppendsConcatenate | fs/fs_test.go:59-84 | Two writes to one file leave the concatenation of both. |
| FileSystem.Moved | fs/fs.go:103-109 | The destination gets the source's contents and replaces what it held; the source is gone; nothing else changes. |
| FileSystem.Kept | fs/fs.go:45-61 | After the cleanup a file remains iff it is outside the directory or its name is kept, and it is unchanged. |
| FileSystem.Copied | fs/fs.go:31-33 | What a copy leaves is a prefix of the data: all of it without a fault, the bytes written before the fault otherwise. |
| FileSystem.InterruptedWriteIsPrefix | fs/fs.go:24-35 | A write that breaks off leaves the file holding a prefix of what the full write would. |
| FileSystem.FileTable.Write | fs/fs.go:24-35 | Appends to the file, or creates it. An open failure is "failed to open file: ..." and changes nothing. A copy that breaks off is "failed to copy contents to file: ...", and the bytes copied before it stay appended. It succeeds iff neither happens. |
| FileSystem.FileTable.CreateDir | fs/fs.go:37-43 | Adds the directory; an existing directory is left as it is (fs/fs_test.go:100-114); files are untouched. |
| FileSystem.FileTable.RemoveFile | fs/fs.go:63-70 | Deletes exactly that path; a failure is wrapped with the path and changes nothing. |
| FileSystem.FileTable.Move | fs/fs.go:103-109 | Renames as `Moved` says; a missing source is an error and changes nothing (fs/fs_test.go:180-223). |
| FileSystem.FileTable.DeleteFilesExcept | fs/fs.go:45-61 | Succeeds iff the directory can be listed and every file to delete can be removed; it then leaves exactly `Kept`. Any outcome removes only non-kept files of the directory, keeps every other file unchanged, and on a removal failure returns that file's error. A listing failure returns "failed to list files: ..." and removes nothing. |
| Config.DefaultMemory | config/config.go:129-137 | min when total/2 <= min; otherwise max when total/2 >= max; otherwise total/2. The result lies in [min, max] when min <= max. |
| Config.DefaultMemoryMonotonic | config/config.go:129-137 | More total memory never gives a smaller default. |
| Config.StripWhitespace | config/config.go:139-146 | A rune is in the result iff it is in the input and is not whitespace. |
| Config.StripWhitespaceAppend | config/config.go:139-146 | Stripping works rune by rune: it distributes over concatenation. |
| Config.StripWhitespaceKeepsClean | config/config.go:139-146 | Text with no whitespace is returned unchanged. |
| Config.StripWhitespaceIdempotent | config/config.go:139-146 | Stripping twice is stripping once. |
| Config.Proxy | config/config.go:108-127 | The stripped upper-case variable when it is non-empty, else the stripped lower-case one. |
| Config.BlankUpperProxyShadowsLower | config/config.go:108-127 | An upper-case variable that holds only whitespace still wins, so the proxy is empty. |
| Config.PCFDevHome | config/config.go:95-106 | PCFDEV_HOME when non-empty; else home/.pcfdev; a failed home lookup is "failed to find home directory: ...". |
| Config.New | config/config.go:51-63 | The home lookup, FreeMemory and TotalMemory are tried in that order, and the first error is returned with no config. |
| Config.NewConfigShape | config/config.go:64-93 | OVA path home/ova/<name>.ova, partial path = OVA path + ".partial", VM dir home/vms, key home/vms/key.pem. The total and free memory are the queried values. The default memory is `DefaultMemory` of the total within [3072, 4096], and the Spring Cloud default is the same within [6144, 8192], each lying in its range. The three proxies are the `Proxy` lookups of HTTP_PROXY, HTTPS_PROXY and NO_PROXY. The name, MD5 and key are the arguments. |
| ConfirmUI.ToLower | plugin/non_translating_ui.go:11 | Lower-casing keeps the length and maps every rune on its own. |
| ConfirmUI.Confirm | plugin/non_translating_ui.go:9-16 | The answer to the unchanged message is accepted iff it is "y" or "yes" in any case; the args are ignored. |
| ConfirmUI.ConfirmAcceptsExactly | plugin/non_translating_ui.go:11-15 | Lower-casing gives "y" or "yes" iff the answer is y/yes with each letter in either case. |
| ConfirmUI.ConfirmExamples | plugin/non_translating_ui.go:11-15 | "Yes" is accepted; "ye", " y", "yes\n", "" and "no" are refused: nothing is trimmed. |
| AddressPicker.Matching | address/picker.go:57-66 | Exactly the candidates whose IP equals the subnet, no more of them than the input has. |
| AddressPicker.MatchingAppend | address/picker.go:57-66 | The filter distributes over concatenation, so it keeps the input order and every copy of a kept interface. |
| AddressPicker.MatchingOne | address/picker.go:59-63 | A single interface is kept iff its IP is the subnet. |
| AddressPicker.Consider | address/picker.go:31-51 | A foreign holder or two or more reusable matches skip the subnet. A taken IP is the subnet itself. The decision aborts iff the single match's in-use query fails, and then carries that query's own error unchanged. |
| AddressPicker.ScanSubnets | address/picker.go:30-54 | A successful result is one of the allowed subnets; at most one in-use query is made per subnet. |
| AddressPicker.FirstFitDecides | address/picker.go:30-52 | The first subnet not skipped decides the result, and only the subnets up to it are probed. |
| AddressPicker.AllSkippedMeansAllTaken | address/picker.go:54 | When every subnet is skipped the result is "all allowed network interfaces are currently taken", after probing all of them. |
| AddressPicker.FreeSubnetIsTaken | address/picker.go:31-51 | A subnet that no foreign interface holds and no reusable interface has is taken as it is. |
| AddressPicker.SingleReusableDecidedByDriver | address/picker.go:36-46 | With one matching reusable interface, the subnet is taken iff the driver says that interface is not in use, and skipped iff it says it is. |
| AddressPicker.NonReusableInterfaceExists | address/picker.go:68-81 | True iff a live interface holds the IP and its hardware address matches no reusable interface. |
| AddressPicker.AddrsInSet | address/picker.go:57-66 | Returns `Matching`: the candidates with that IP, in input order. |
| AddressPicker.ExamineSubnet | address/picker.go:31-51 | One pass of the loop body gives the verdict `Consider` defines and makes exactly the in-use query `Probe` names. |
| AddressPicker.SelectAvailableIP | address/picker.go:24-55 | The interfaces are listed once, first, and their error is returned unchanged. Otherwise the result and the queries are those of the first-fit scan. |
| VMBuilder.GetVMConfig | vm/builder.go:162-169 | No call is made iff the VM was never created; the config then holds only the name. Otherwise VirtualBox's config answer is returned. |
| VMBuilder.Build | vm/builder.go:29-160 | The status is queried first. An error is returned iff the status query fails, or the VM was never created and its directory check fails. |
| VMBuilder.StatusErrorIsReturned | vm/builder.go:37-40 | A failed status query is returned as the error, and nothing else is asked. |
| VMBuilder.ConfigIsQueriedUnlessNotCreated | vm/builder.go:42-47 | Any status but not-created queries the config second; a failure there gives `Invalid` with that error, not an error. |
| VMBuilder.NotCreatedOutcomes | vm/builder.go:50-70 | The directory check's error is returned; an existing directory gives `Invalid` "VM files need to be purged"; otherwise `NotCreated` with the name only. |
| VMBuilder.RunningIffHealthy | vm/builder.go:71-125 | A running VM is `Running` iff the trimmed health output is "ok" with no error, and `Unprovisioned` iff not. |
| VMBuilder.PaddedOkIsHealthy | vm/builder.go:72 | "ok" surrounded by any whitespace counts as healthy. |
| VMBuilder.QuiescentStates | vm/builder.go:126-154 | Stopped, paused and saved map to `Stopped`, `Paused` and `Saved`, carrying the fetched config. |
| VMBuilder.UnknownStatusIsInvalid | vm/builder.go:155-158 | An unknown status is never an error: it is `Invalid` "vm in unknown state" (or the config error). |
| Text.TrimSpace | vm/builder.go:72 | The result is a slice of the input with only whitespace outside it, and it neither starts nor ends with whitespace. |
| Text.TrimSpaceOfFramed | vm/builder.go:72 | Trimming whitespace padding recovers the padded text. |
| StoppedVM.Stopped.Stop | vm/stopped.go:21-24 | Says "PCF Dev is stopped", succeeds, makes no VM call. |
| StoppedVM.Stopped.Preflight | vm/stopped.go:27-32 | The requirements are checked first, with no VM call; the low-memory prompt follows only when the check fails. |
| StoppedVM.Stopped.Start | vm/stopped.go:26-47 | A declined prompt says "Exiting..." and succeeds without starting the VM. A start failure is a `StartVMError` and nothing is provisioned. A provisioning failure is a `ProvisionVMError`. "PCF Dev is now running" is said iff the VM was started and no error followed. |
| StoppedVM.Stopped.Status | vm/stopped.go:49-51 | Says "Stopped" and makes no VM call. |
| StoppedVM.Stopped.Destroy | vm/stopped.go:53-55 | Destroys the VM by name and returns an error iff `DestroyVM` did, unchanged. |
| StoppedVM.Stopped.Suspend | vm/stopped.go:57-60 | Message only, succeeds, no VM call. |
| StoppedVM.Stopped.Resume | vm/stopped.go:62-65 | Message only, succeeds, no VM call. |
| StoppedVM.FailedStartDoesNotProvision | vm/stopped.go:34-37 | A start that fails at `StartVM` has made exactly that one VM call. |
| StoppedVM.SuccessfulStartMessages | vm/stopped.go:34-46 | A successful start says "Starting VM...", "Provisioning VM...", "PCF Dev is now running", in that order. |
| StoppedVM.SuccessfulStartVMCalls | vm/stopped.go:34-43 | A successful start makes exactly two VM calls: the start, then the provisioning command with the domain before the IP. |
| SuspendedVM.Suspended.Suspend | vm/suspended_test.go:46-51 | Says "Your VM is suspended." and succeeds, with no VM call. |
| SuspendedVM.Suspended.Stop | vm/suspended_test.go:53-58 | Says the must-resume message and succeeds, with no VM call. |
| SuspendedVM.Suspended.Resume | vm/suspended_test.go:82-102 | Says "Resuming VM..." then resumes the VM by name; fails iff the resume fails, as "failed to resume VM: <err>". |
| SuspendedVM.Suspended.Start | vm/suspended_test.go:60-80 | The same calls and errors as `Resume`. |
| SuspendedVM.Suspended.Status | vm/suspended_test.go:104-110 | Says "Suspended" and makes no VM call. |
| SuspendedVM.Suspended.Destroy | vm/suspended_test.go:112-118 | Destroys the VM by name; fails iff `DestroyVM` fails. |
| SuspendedVM.Suspended.GetConfig | vm/suspended_test.go:120-124 | Hands back the config the VM was built with. |
| SuspendedVM.ResumeTrace | vm/suspended_test.go:60-68 | Resuming says one message, then makes one VM call: the resume of this VM. |
| Downloader.PartialOf | downloader/downloader_test.go:122-139 | The partial download is in the OVA's directory and is not the OVA. |
| Downloader.Downloader.IsOVACurrent | downloader/downloader_test.go:45-119 | An absent OVA is `false`, with no checksum computed. A present OVA is `true` or `false` as its checksum is or is not the expected one. The errors of the path lookup, the existence check and the checksum are each returned as they are, with the calls made up to them. |
| Downloader.Downloader.Attempt | downloader/downloader_test.go:122-139 | One round: fetch from the offset, save the token, append to the partial file, hash it. It equals `AttemptSpec`, whose outcomes `AttemptErrors` and `AttemptResult` state: it stops at the first failure with that step's own error. |
| Downloader.AttemptErrors | downloader/downloader_test.go:270-333 | The first failing step ends an attempt with its own error and nothing after it: the fetch's error after the fetch alone, the token's error after the save, the open error or "failed to copy contents to file: ..." after the write, and the read error after the checksum. |
| Downloader.Downloader.Settle | downloader/downloader_test.go:133-134 | Equals `SettleSpec`, whose outcomes `SettleOutcome` states. |
| Downloader.SettleOutcome | downloader/downloader_test.go:463-480 | An attempt's error is returned as it is, and a mismatch is "download failed", neither with a further call. A match makes the one `Move` call. It succeeds iff the partial exists, the directory exists and the rename has no fault. Any `Move` error is the download's, with the files unchanged. |
| Downloader.Downloader.Resume | downloader/downloader_test.go:141-210 | Equals `ResumeSpec`: it resumes at the partial's length, and on a mismatch removes the partial and fetches once more from 0. `ResumeErrors`, `RetryErrors`, `ResumeOffsets` and `RetryMatchSucceeds` state its outcomes. |
| Downloader.ResumeErrors | downloader/downloader_test.go:256-268 | A resume ends at the first failing step with that step's own error and its call last. These steps are the length query, the first attempt, the rename after a match, and the removal after a mismatch (downloader/downloader_test.go:335-353). |
| Downloader.RetryErrors | downloader/downloader_test.go:373-461 | After the removal, the retry ends with the second attempt's own error, with "download failed" on a second mismatch, or with the rename's error, each after exactly the calls made up to it. |
| Downloader.Downloader.Fetch | downloader/downloader_test.go:122-210 | Equals `FetchSpec`. It resumes an existing partial; otherwise it fetches once from 0 with no retry (downloader/downloader_test.go:355-371). `FetchErrors`, `FetchOffsets`, `FirstMatchSucceeds`, `RetryMatchSucceeds` and `MismatchFails` state its outcomes. |
| Downloader.FetchErrors | downloader/downloader_test.go:243-254 | A failed look for the partial returns that error after that one call. With a partial present, the outcome is the resume's. A fresh download returns its attempt's own error, "download failed" on a mismatch, or the rename's error, after exactly the calls made up to it. |
| Downloader.Downloader.Download | downloader/downloader_test.go:121-481 | Gets the OVA path, creates its directory, then deletes everything there except the OVA and its partial, before any fetch. Each error stops the download at once. A failed cleanup returns its own error (downloader/downloader_test.go:231-241): a listing failure leaves the files unchanged, and a removal failure returns the error of a stale file that is still present. After a successful cleanup, the rest is `Fetch` on the cleaned table. The directory set gains the OVA's directory iff it was created. |
| Downloader.FetchOffsets | downloader/downloader_test.go:122-210 | At most two fetches. The first is at the partial's length, or at 0 with no partial. A second, at 0, happens only when a partial existed, its resumed contents failed the checksum, and it was removed. |
| Downloader.ResumeOffsets | downloader/downloader_test.go:141-210 | A resume fetches first at the partial's length, and a second time, at 0, only after the resumed contents failed the checksum and the partial was removed. |
| Downloader.AttemptResult | downloader/downloader_test.go:122-139 | An attempt reports a checksum iff fetch, token save, write and hash all succeeded; it matches iff the old contents plus the fetched bytes have the expected digest. |
| Downloader.MatchingAttempt | downloader/downloader_test.go:122-139 | With no faults and matching contents, an attempt makes its four calls and reports a match. |
| Downloader.RetryMatchSucceeds | downloader/downloader_test.go:161-185 | With no faults, a resumed partial whose contents mismatch, followed by a fetch from 0 that matches: the partial is removed, the fetches are at its length and then at 0, the OVA holds the fresh bytes, no partial remains, and the download succeeds. |
| Downloader.FirstMatchSucceeds | downloader/downloader_test.go:122-159 | With no faults, a first fetch that completes the file with the expected checksum, resumed or fresh, is moved into place: the download succeeds with one fetch and no removal. |
| Downloader.InterruptedAttemptKeepsPrefix | downloader/downloader_test.go:300-315 | A stream that breaks off while written fails the attempt with the copy error and leaves a prefix of the full contents in the partial file. |
| Downloader.AttemptFetchesOnce | downloader/downloader_test.go:122-139 | One attempt fetches exactly once, at its offset. |
| Downloader.SuccessMeansVerifiedOVA | downloader/downloader_test.go:122-185 | A successful download leaves an OVA whose checksum is the expected one, and no partial file. |
| Downloader.MismatchFails | downloader/downloader_test.go:187-210 | With no faults and contents that never match, the result is "download failed": after two fetches when a partial existed, after one when none did (downloader/downloader_test.go:355-371). |
| Downloader.TokenSavedBeforeEveryWrite | downloader/downloader_test.go:284-298 | Every write of the partial comes right after the API token was saved. |
| Downloader.OtherFilesUntouched | downloader/downloader_test.go:122-210 | After the cleanup only the OVA and its partial change. |
| StartCommand.TargetVM | plugin/cmd/start_test.go:118-248 | The four-way decision table, each as an iff. "pcfdev-custom" when an OVA path is set and no VM or the custom one exists, or no OVA path is set and the custom VM exists. The default name when no OVA path is set and no VM or the default one exists. "you must destroy ..." when an OVA path is set and another VM exists. "old version ..." when no OVA path is set and an unknown VM exists. |
| StartCommand.Steps | plugin/cmd/start_test.go:100-277 | The VM is built first. The download runs iff the provision flag is unset and the target is not the custom VM. The last call is `Provision` iff the flag is set. |
| StartCommand.Execute | plugin/cmd/start_test.go:134-181 | Calls happen in order and stop at the first failure, whose error is returned unchanged. Success means every call was made and none failed. |
| StartCommand.Run | plugin/cmd/start_test.go:95-278 | `GetVMName` comes first and its error is returned alone. A precondition error is returned before any VM is built. Otherwise the result is `Execute` of `Steps` for the chosen VM. |
| StartCommand.RunOn | plugin/cmd/start_test.go:100-277 | The calls on the chosen VM are exactly `Execute` of `Steps`. |
| StartCommand.CustomNeverDownloads | plugin/cmd/start_test.go:184-226 | With a custom OVA path, or an existing custom VM, the download never runs. |
| StartCommand.ProvisionOnly | plugin/cmd/start_test.go:251-277 | With the provision flag only the build and `Provision` are called, and `Provision`'s error is returned. |
| StartCommand.DefaultStartOrder | plugin/cmd/start_test.go:100-116 | The default OVA with no VM: build the default VM, verify the options, download, start. |

## Left out

- `healthcheck` (vm/builder.go:171-193) uses goroutines, channels and 20-second timeouts over SSH. It is an input: the (output, error) pair it produced.
- Printing, prompting and UI construction are not modelled. `Say` and `Confirm` are trace events, and the user's answer is a parameter.
- The VirtualBox status names, the subnet allow-list and the IP-to-domain mapping are defined outside these files. They are parameters.
- MD5 is an uninterpreted function of file contents. Real OS error kinds, permissions and rename atomicity are not modelled: a fault of each file step, and the point at which a copy breaks off, are parameters.
- FileSystem.Exists: directories are not entries of the file table, so a path naming a directory reads as absent, where `os.Stat` finds it.
- FileSystem.FileTable.DeleteFilesExcept: sees only files. `ioutil.ReadDir` also lists subdirectories, which `os.Remove` deletes when empty and fails on otherwise; the model's cleanup succeeds where a non-empty subdirectory would fail it.
- `filepath.Join` does not clean paths here: `Join(a, b)` is `a + "/" + b`.
- `user.GetHome` and the system memory queries are inputs. Go's `uint64` is a subset type, and `getDefaultMemory` cannot overflow.
- The pivnet HTTP client, the certificate store, the SSH and VBoxManage drivers and flag parsing (plugin/cmd/start_test.go:47-93) are outside this model.
- vm/builder_test.go is not part of this model. It targets an older builder that disagrees with vm/builder.go.
- FileSystem.FileTable.DeleteFilesExcept: removes the directory's files in an unspecified order, where `ioutil.ReadDir` sorts by name. On a removal failure the contract says which kind of file failed, not which one came first.
- ConfirmUI.ToLower: lower-cases only ASCII letters. No other rune lower-cases to 'y', 'e' or 's', so `Confirm`'s decision is the same as with full Unicode case mapping.
- VMBuilder.Build: the `Stopped` state built by vm/builder.go carries a VM config. `StoppedVM.Stopped` follows vm/stopped.go's own fields (name, domain, IP, SSH port).
- The downloader's source is not part of this model. Its call order is rebuilt from its test, which names the cleanup call `DeleteAllExcept`; fs/fs.go names it `DeleteFilesExcept`. `GetOVAPath` gives a path as (directory, name), and the cleanup keeps `<name>` and `<name>.partial`.
- Downloader.Downloader.Download: the tests do not fix what a `Move` error after the retry does. The model propagates it as in the first attempt. On a failed removal during the cleanup, which stale file's error is returned depends on the removal order, which the model leaves unspecified.
- Config.New: the `DefaultCPUs` field (`system.PhysicalCores`) and the `Version` field of config/config.go are not modelled. They are copied from collaborators and no rule here reads them.
- SuspendedVM.Suspended.Destroy: the test covers only success. The model returns `DestroyVM`'s error unchanged, as `Stopped.Destroy` does.
- StartCommand.Run: the tests do not say whether the VM name is chosen before the provision flag is read. The model chooses first, so the precondition errors also apply with the flag set. The download is skipped exactly for the custom VM name.
