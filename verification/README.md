# Verification of the Enos provider's core logic

A Dafny model of the parts of the Enos Terraform provider in which state, concurrency or recursion
make mistakes hard to see, with proofs about all inputs, all runs and all interleavings. Check it
with `dafny verify dfyconfig.toml`.

## What is modelled

**Remote exec and copy** (`ExecProtocol`, `ExecProtocolProofs`). The executor, two capture
goroutines, the tar writer and the waiter are a step relation with one program counter each; pipes
are unbuffered and channels bounded. Safety is an inductive invariant, absence of deadlock is a
progress lemma with a decreasing measure. A Copy whose exec fails before it starts does not close
its streams; that this is exactly the case in which it never returns is `ReturnsIff`. Writes of no
bytes are modelled on stdin, where archive/tar makes them (a flush before each header, a second one
once the header is accepted, one before the trailer): they wait for a reader like any other.
`bytes.Buffer` never refuses a write, which is the premise `!sinkFails`; only the channel capacities
are proved without it.

**Terraform values and transports** (`TfValues`, `TfConversion`, `Transports`). Wire trees of any
depth, the wrappers and their round trip as functions; the loops with arbitrary key order as methods
proved against them; the transport objects, whose attributes are shared pointers updated in place,
as classes.

**enos_remote_exec** (`ExecDigest`, `OutputBuffer`, `RemoteExec`, `RemoteExecResource`). The digest,
the output buffers, the command loops, the plan and apply operations and the router's answer, and
invariants over any run of plan/apply cycles, failed ones included. SHA-256 is a function parameter
with 64-character values; since no such function is injective, statements about it name the strings
that would have to collide.

**Retry and Vault** (`Contexts`, `Intervals`, `Retry`, `VaultState`, `VaultInit`). A context is a
counter of the polls that still find it live. Retry, the helpers that share or clone a retrier, the
interval functions in int64, and the chain from GetState over WaitForState to Init.

**Vault configuration** (`HclBuilder`, `HclDocument`, `SealEnv`, `VaultRender`,
`VaultSettings`). Builders are heap
objects; a document is also a value in which builders are numbered, and every append is one change
of that value. Render is proved against a description of what either mode has to contain, and the
description entry by entry against the settings.

**Unit properties and public IPs** (`Systemd`, `IpResolver`). A printer and parser with the exact
condition of their round trip, and a resolver whose result does not depend on the order in which
its goroutines finish.

Map iteration is always an arbitrary choice of the next key; where the order shows, it is a
permutation of the keys (`Orders`). Integers print in decimal (`Decimals`). Remote commands, hashes, files, random IDs and the Terraform
side are parameters.

## Where the code differs from what one would expect

- A Copy blocks forever if the exec could not be started (`ExecProtocolProofs.ReturnsIff`).
- The sum does not identify a configuration (`ExecDigest.SumIsAmbiguous`).
- A single resolver adds its addresses only when it fails, and several resolvers may all fail
  without an error (`IpResolver.PublicIPResolver.Resolve`).
- With two values for two spellings of one seal attribute the iteration order decides
  (`SealEnv.OrderIrrelevantIff`).
- A null list or map of other elements than strings turns into a null collection of strings, and a
  null element that is not a string into the empty string (`TfValues.RoundTrip`).
- TargetHostInfo panics when its context is done before it asks for the distribution or its version
  (`Retry.HostInfoPanicsIff`, `Retry.DoneBetweenHelpers`).
- A seal that comes from `seals` alone gets the labels `priority` and `name`, which have no
  environment variable and are lost in env mode (`SealEnv.DroppedIff`).

## Model

| member | source | states |
|---|---|---|
| ExecProtocolProofs.InitInv | internal/transport/exec.go:99-122 | the invariant of the protocol holds at the start |
| ExecProtocolProofs.StepKeepsInv | internal/transport/exec.go:182-277 | every step of every goroutine keeps the invariant: byte accounting of the three pipes, channel contents against program counters, what the waiter has computed |
| ExecProtocolProofs.StreamStep | internal/transport/exec.go:186-207 | a step of an output pipe or its capture goroutine loses and adds no byte |
| ExecProtocolProofs.StdinStep | internal/transport/exec.go:24-44 | a step of the tar writer or the stdin reader accounts for every byte of header, body and trailer, for writes of no bytes, and for the result that is sent |
| ExecProtocolProofs.StepDecreases | internal/transport/exec.go:182-277 | a measure of the remaining work decreases with every step of every goroutine |
| ExecProtocolProofs.Progress | internal/transport/exec.go:155-277 | in every reachable unfinished state some goroutine can take a step, for every Run and for a Copy whose exec started |
| ExecProtocolProofs.NoDeadlock | internal/transport/exec.go:182-277 | for every Run and every Copy whose exec started: every run has bounded length, and a run that cannot go on has finished, with the waiter returned, the executor gone, the captures done and the tar writer gone |
| ExecProtocolProofs.CanFinish | internal/transport/exec.go:182-277 | every run of a Run, or of a Copy whose exec started, can be continued to a finished one |
| ExecProtocolProofs.ReturnsIff | internal/transport/exec.go:243-256 | a Run can always return, and a Copy can exactly when its exec has started; otherwise the tar writer blocks in its first write under every interleaving, whether the header is accepted or not |
| ExecProtocolProofs.ChannelsNeverBlock | internal/transport/exec.go:173-202 | ExecErr, the capture error channel and the tar result channel never exceed capacities 1, 2 and 1, and whoever is about to send on one can send |
| ExecProtocolProofs.RunOutput | internal/transport/exec.go:182-214 | the results are prefixes of what the remote side wrote, all of it when it ran to completion; exactly one final newline is taken off if there is one, and nothing else |
| ExecProtocolProofs.RunVerdict | internal/transport/exec.go:216-240 | the waiter returns an exit error exactly when the verdict is one, with its code; an unsuccessful verdict is never swallowed and its cause is in the error; a Run has a nil error exactly for a successful one, and otherwise an error with that one cause |
| ExecProtocolProofs.CopyAnswer | internal/transport/exec.go:24-44 | a returned Copy received exactly one tar result; its error is nil iff exec and tar result are clean and stderr is empty or a lone newline, and otherwise joins, in this order, the cause of the verdict, the tar error and the text of stderr; the tar result is clean iff an accepted header and a readable body were read in full, and otherwise is the error of header or source or of the closed pipe; what was read is never more than was to be written, and all of it, trailer included, when the remote side drained stdin, also after a refused header |
| ExecProtocolProofs.KubernetesExitCode | internal/kubernetes/client.go:248-270 | in every execution, also one that is cut off, the caller sees an exit error exactly when the stream error carries an exit status, with that status, and every stream error as a cause |
| ExecProtocolProofs.NomadExitCode | internal/nomad/client.go:178-211 | in every execution, also one that is cut off, the caller sees an exit error exactly for a non-zero exit code, with the error of the API as its cause or else a text with that code; an error of the API alone is reported as well |
| TfValues.RoundTrip | internal/plugin/tftypes.go:780-918 | FromTFValue on a fresh object followed by TFValue is the normal form (collections of strings, empty ones null, null and unknown objects without their type), for every accepted tree of any depth |
| TfValues.ToInt64Is | internal/plugin/tftypes.go:268-292 | numbers lose their fraction and saturate at the ends of int64 |
| TfValues.UnchangedIff | internal/plugin/tftypes.go:780-918 | exactly which accepted trees come back as they went in: no empty or non-string collections, no typed null or unknown object, numbers in int64, and no map in place of the object, at any depth |
| TfValues.SecondRoundTrip | internal/plugin/tftypes.go:780-918 | a second round trip is the identity |
| TfValues.AcceptedIff | internal/plugin/tftypes.go:831-918 | FromTFValue accepts exactly the supported trees; lists and maps are told by their kind, so a null of any list or map type is accepted, and any list or map whose elements read as strings |
| TfValues.NormAttrStable | internal/plugin/tftypes.go:780-918 | normal forms are stable |
| TfValues.ValueMatchesType | internal/plugin/tftypes.go:780-829 | TFValue is always well formed and has exactly the type that TFType announces |
| TfValues.GetObjectFaithful | internal/plugin/tftypes.go:930-988 | GetObject succeeds exactly on settled trees, and its native values spell the normal form; settled is free of null and unknown parts, except that a null object, a null list or map of other than strings and a null element of another type read as empty, and an unknown of dynamic type is handed out as it is |
| TfConversion.ListFromTFValue | internal/plugin/tftypes.go:451-479 | the list loop computes the specified wrapper, with its error cases |
| TfConversion.MapFromTFValue | internal/plugin/tftypes.go:610-638 | the map loop does so in every order of the keys |
| TfConversion.ObjFromTFValue | internal/plugin/tftypes.go:831-918 | the object conversion does so, recursively and in every order of the attributes |
| TfConversion.GetStrings | internal/plugin/tftypes.go:489-506 | stops at the first element that is not known and returns what it has |
| TfConversion.GetObject | internal/plugin/tftypes.go:930-988 | computes the native values in every order, an empty map on failure |
| Transports.TfString.FromTFValue | internal/plugin/tftypes.go:356-372 | sets the wrapper in place to what the wire value says |
| Transports.TfString.Default | internal/plugin/embedded_transport.go:601-617 | takes the default exactly when the attribute has no value and the default has one |
| Transports.Transport.FromTerraform5Value | internal/plugin/embedded_transport_ssh.go:142-159 | loads a non-empty set of known attributes and fails exactly otherwise |
| Transports.Transport.ApplyDefaults | internal/plugin/embedded_transport.go:601-617 | merges the provider's attributes behind the resource's, in every order of the map |
| Transports.AcceptableIff | internal/plugin/embedded_transport.go:267-295 | the transport blocks that are accepted: names, attributes of each and their values |
| Transports.Embedded.FromTerraform5Value | internal/plugin/embedded_transport.go:267-295 | loads each known transport type and refuses any other, in every order of the keys |
| Transports.Embedded.Copy | internal/plugin/embedded_transport.go:323-341 | a copy shares nothing with its original, has the same wire value and leaves the original as it is |
| Transports.Embedded.GetConfiguredTransport | internal/plugin/embedded_transport.go:97-116 | succeeds exactly when one transport is configured, and returns it |
| Transports.Embedded.ApplyDefaults | internal/plugin/embedded_transport.go:415-461 | one configured transport gets the provider's values behind its own; none configured adopts the provider's single transport; every other count is an error that changes nothing |
| Transports.Reload | internal/plugin/embedded_transport.go:323-341 | what a copy reads back from the wire value of its original |
| Transports.CopyThenDefault | internal/plugin/transport_resource_util.go:266-280 | copy first, then default: the resource's own value and the provider stay as they were, the copy carries the resolved configuration |
| Transports.Precedence | internal/plugin/embedded_transport.go:415-461 | each resolved attribute is the resource's value if it has one, else the provider's if it has one, else what the resource had; raw values are kept, and resolving again changes nothing |
| ExecDigest.SortedUnique | internal/plugin/exec_config.go:89-94 | a sorted duplicate-free list of the keys is unique, so the order of map iteration does not matter |
| ExecDigest.LexIff | internal/plugin/exec_config.go:94 | the comparison of strings is the dictionary order: a prefix first, otherwise the first difference decides |
| ExecDigest.SortStrings | internal/plugin/exec_config.go:94 | the same keys in strictly ascending dictionary order |
| ExecDigest.HashScripts | internal/plugin/exec_config.go:57-87 | succeeds exactly when every script opens before the context is done, and then hashes the bodies in order |
| ExecDigest.HashEnv | internal/plugin/exec_config.go:89-102 | hashes key and value of each variable, joined by a colon, in strictly ascending dictionary order of the keys, whatever the iteration order |
| ExecDigest.ComputeSHA256 | internal/plugin/exec_config.go:27-105 | the exact success condition, and the digest of content, inline commands, script bodies and environment |
| ExecDigest.HashedInOrder | internal/plugin/exec_config.go:25-108 | every sum is that of the content, the inline commands, the bodies of the scripts and the variables, in this order |
| ExecDigest.SumOfEach | internal/plugin/exec_config.go:25-108 | an instance with one of each and two variables, written out |
| ExecDigest.AggregateInjective | internal/plugin/exec_config.go:36-105 | equal concatenations of fixed-width hashes come from equal item sequences, or a collision is exhibited |
| ExecDigest.SumsEqualIff | internal/plugin/exec_config.go:36-105 | two configurations have equal sums exactly when they hash the same items in the same order, unless two hashed strings collide |
| ExecDigest.SumDeterminesConfig | internal/plugin/exec_config.go:36-105 | with matching item positions and colon-free keys, equal sums mean equal content, inline commands, script bodies and environments |
| ExecDigest.SumIsAmbiguous | internal/plugin/exec_config.go:36-105 | without those conditions equal sums do not: content against an inline command, and a colon that moves between key and value |
| OutputBuffer.JoinedSnoc | internal/ui/ui.go:89-112 | appending to a buffer of joined chunks gives the joined longer sequence |
| OutputBuffer.Buffered.Append | internal/ui/ui.go:89-112 | both streams hold their non-empty chunks joined by newlines, and the combined buffer grows by exactly the same pieces |
| OutputBuffer.AppendAll | internal/ui/ui.go:89-112 | the same for any sequence of appends; the combined buffer has exactly the bytes of both streams |
| RemoteExec.SomeStrings | internal/plugin/tftypes.go:648-665 | all of a known map, otherwise an arbitrary part of its known entries |
| RemoteExec.NonEmptyAt | internal/plugin/resource_remote_exec.go:349-352 | where a command is among the non-empty ones |
| RemoteExec.Runner.CopyAndRun | internal/plugin/resource_remote_exec.go:401-434 | runs one job, records its output, and fails exactly when the job fails or the context was done |
| RemoteExec.Runner.RunInline | internal/plugin/resource_remote_exec.go:342-366 | runs the non-empty inline commands in order up to and including the first failure |
| RemoteExec.Runner.RunScripts | internal/plugin/resource_remote_exec.go:368-386 | runs the script bodies in order up to and including the first failure, or up to a script that cannot be opened |
| RemoteExec.Runner.ExecuteCommands | internal/plugin/resource_remote_exec.go:338-398 | inline commands, then scripts, then content: an initial part of that order in which every job but possibly the last succeeded, ended early only by a failure, a script that cannot be opened or a done context; the buffers hold exactly those outputs |
| RemoteExecResource.AnyUnknown | internal/plugin/resource_remote_exec.go:530-554 | true exactly if the content, a list or the map is unknown or a list or the map has a part that is not known |
| RemoteExecResource.ConfigIs | internal/plugin/resource_remote_exec.go:556-563 | what the digest and the commands see of the settings: known attributes, and lists and maps all of whose parts are known |
| RemoteExecResource.JobsAre | internal/plugin/resource_remote_exec.go:338-436 | which jobs a run of the commands consists of, in order: non-empty inline commands, scripts, content; where each is copied, and the environment it gets |
| RemoteExecResource.ResourceState.PlanResourceChange | internal/plugin/resource_remote_exec.go:131-182 | computes the planned state; an error leaves the proposal as it was |
| RemoteExecResource.ResourceState.Validate | internal/plugin/resource_remote_exec.go:438-471 | accepts exactly when there is something to run and every script opens |
| RemoteExecResource.ResourceState.ApplyResourceChange | internal/plugin/resource_remote_exec.go:186-250 | jobs and new state for every outcome; stdout and stderr are the joined outputs of the jobs that ran, each from its own stream, and stay as they were when none had to run |
| RemoteExecResource.CycleSettles | internal/plugin/resource_remote_exec.go:131-250 | a successful cycle ends with ID, sum, stdout and stderr known, the sum being that of the applied settings; the ID of an existing resource and every value that the plan did not leave unknown are kept |
| RemoteExecResource.PlanAnnounces | internal/plugin/resource_remote_exec.go:131-184 | a plan leaves the outputs unknown exactly when its apply runs the commands, the ID exactly for a new resource, and otherwise announces the sum that the apply keeps |
| RemoteExecResource.CycleOutputs | internal/plugin/resource_remote_exec.go:213-247 | a cycle that ran its commands ends with their joined stdout and stderr, and one that did not with those that were there |
| RemoteExecResource.RunsIff | internal/plugin/resource_remote_exec.go:167-222 | the commands of an existing resource run exactly when something is unknown or the digest has changed; otherwise only the settings are taken over |
| RemoteExecResource.Idle | internal/plugin/resource_remote_exec.go:131-250 | re-applying an unchanged, fully known configuration runs nothing and changes nothing |
| RemoteExecResource.RouteApply | internal/server/resourcerouter/apply.go:77-131 | the answer to Terraform holds a new state exactly when the apply ended without error, and then the applied one |
| RemoteExecResource.RunCycle | internal/plugin/resource_remote_exec.go:131-250 | one cycle of plan and apply, wherever it fails: what Terraform then holds is the step that the runs of cycles are made of, with the outputs of the commands that ran |
| RemoteExecResource.RunKeeps | internal/plugin/resource_remote_exec.go:131-250 | at every point of every run, with settings and files changing freely and any cycle failing anywhere: nothing before the first cycle without error, then the settled state of the last such cycle with the ID of the first |
| RemoteExecResource.RunOutputs | internal/plugin/resource_remote_exec.go:131-250 | at every point of every run stdout and stderr are those of the last cycle without error that ran its commands |
| RemoteExecResource.FailureIsRetried | internal/server/resourcerouter/apply.go:77-95 | after any number of failed cycles a cycle with the same settings and files runs the commands exactly when the first failed one would have |
| Retry.Retrier.Clone | internal/retry/retry.go:95-103 | a clone has the same counter, limits and last error |
| Retry.Retrier.ShouldRetry | internal/retry/retry.go:191-210 | false at the limit; with a list of errors, true exactly if the last error is one of them |
| Retry.Retrier.LastCallIff | internal/retry/retry.go:191-210 | a call is the last one exactly if it succeeds, reaches the limit or fails with an error that is not listed |
| Retry.Retrier.Retry | internal/retry/retry.go:28-69 | which call is the last; between 1 and max(1, limit - counter) calls under a live context; nil error exactly when the last call succeeded; otherwise every attempt's error in order, numbered; the waits between calls |
| Retry.FailingCallsUseTheBudget | internal/retry/retry.go:191-195 | when every call fails the budget is used up exactly |
| Retry.OnShared | internal/remoteflight/flightcontrol.go:90-98 | helpers on one fresh retrier: j calls make at most limit + j - 1 attempts (max(1, limit) + j - 1 in general); the first error ends the sequence |
| Retry.OnClones | internal/remoteflight/target.go:228-261 | helpers on clones have independent budgets; each makes the calls that its operation and what is left of the context determine, and it panics exactly when the context, as it was passed in, is used up before some helper that converts its result unchecked |
| Retry.HostInfoPanicsIff | internal/remoteflight/target.go:228-261 | TargetHostInfo panics exactly when its context does not outlast the calls for architecture and distribution |
| Retry.QuickHelpers | internal/remoteflight/target.go:228-261 | helpers that succeed at once use one call of the context each |
| Retry.DoneBetweenHelpers | internal/remoteflight/target.go:137-175 | an instance: helpers that work at once panic under a context that lasts for two calls, and do not under one that lasts for three |
| Retry.FibonacciWaits | internal/retry/retry.go:239-253 | the waits before attempt n total (fib(n+1) - 1) times the base |
| Intervals.IntervalFibonacci | internal/retry/retry.go:239-253 | the table of wrapping int64 sums, with all indexing in bounds, yields the wrapped product of the recursive Fibonacci number and the base |
| Intervals.WrapSum | internal/retry/retry.go:247-249 | wrapping each partial sum is the same as wrapping the exact sum |
| Intervals.FibonacciExactIff | internal/retry/retry.go:239-253 | with a base of one second the interval is exact iff the attempt is at most 49 |
| Intervals.ExponentialExactIff | internal/retry/retry.go:226-234 | with a base of two seconds the interval is exact iff the attempt is at most 32, whatever the float of a power beyond int64 converts to |
| VaultState.GetState | internal/remoteflight/vault/state.go:153-331 | the state as far as it got and the error flag, for every combination of replies |
| VaultState.ObservedIff | internal/remoteflight/vault/state.go:153-331 | when GetState succeeds (everything asked for was answered and the sources agree), and what the state then is |
| VaultState.SucceedsIff | internal/remoteflight/vault/state.go:153-331 | exactly which replies make GetState succeed, in terms of exit codes and bodies |
| VaultState.PartialFacts | internal/remoteflight/vault/state.go:153-331 | after an error: how far the state got, and that each part of it is a reply |
| VaultState.ObservedFacts | internal/remoteflight/vault/state.go:202-331 | after success each part of the state is the reply to its question, and there exactly if it applies, with exit codes and replication modes written out: replication for an open active node of which one mode is neither empty, unknown nor disabled; privileged data with a token; HA and raft data if status and seal status say so |
| VaultState.SealedIff | internal/remoteflight/vault/state.go:432-478 | the seal state is known exactly when exit codes and bodies of all three sources agree, and then it is theirs |
| VaultInit.CheckState | internal/remoteflight/vault/state.go:337-361 | one try: GetState, then every check in order |
| VaultInit.WaitForState | internal/remoteflight/vault/state.go:336-384 | a nil error means the last state polled, obtained without error, satisfies all checks and no earlier one did; it fails only because the context is done; five seconds between two polls |
| VaultInit.PodPhaseIff | internal/remoteflight/vault/checks.go:78-108 | the first pod with the name has the phase |
| VaultInit.RunsOnIff | internal/remoteflight/vault/checks.go:28-108 | the process check by transport: the four unit properties, or the phase Running of the first pod with the name |
| VaultInit.ChecksIff | internal/remoteflight/vault/checks.go:235-294 | what the checks for initialization and a known seal say, in terms of the replies |
| VaultInit.ChecksFor | internal/remoteflight/vault/init.go:253-276 | which prior and post checks each transport has |
| VaultInit.Init | internal/remoteflight/vault/init.go:239-328 | the init command is issued at most once, exactly when a ready prior state, which was polled before, is uninitialized; a nil error means the post state is initialized, its seal known and its process running; an error has one of the two possible causes, and a failed command leaves the post state that was then polled |
| Systemd.ToString | internal/remoteflight/systemd/properties.go:76-84 | prints every property once, in whatever order the map yields them |
| Systemd.DecodeUnitPropertiesFromShow | internal/remoteflight/systemd/client.go:262-287 | the scanner loop; a later line overrides an earlier one, a line without '=' is skipped |
| Systemd.DecodePrinted | internal/remoteflight/systemd/client.go:262-287 | for names and values that fit on a line, exactly a trailing carriage return is lost |
| Systemd.DecodeLine | internal/remoteflight/systemd/client.go:262-287 | one line: the text before its first '=' names the rest of it without a final carriage return, a line without '=' is skipped, and a later line with the same name wins |
| Systemd.RoundTripIff | internal/remoteflight/systemd/client.go:262-287 | printing in any order and decoding gives the properties back exactly when no name has '=' or newline and no value has a newline or a trailing carriage return |
| Systemd.LastLine | internal/remoteflight/systemd/client.go:262-287 | a last line is read the same with and without a newline after it |
| Systemd.TrimmedRoundTrip | internal/remoteflight/systemd/client.go:262-287 | so the round trip also holds for output whose last newline has been trimmed |
| Systemd.HasProperties | internal/remoteflight/systemd/properties.go:32-41 | true exactly when all pairs are there |
| Systemd.FindProperties | internal/remoteflight/systemd/properties.go:46-73 | the named properties, an error exactly if one is missing |
| Systemd.CheckEnabledAndRunning | internal/remoteflight/vault/checks.go:28-41 | holds exactly when the four required pairs are there |
| Systemd.CheckPrinted | internal/remoteflight/vault/checks.go:28-41 | the same on what comes back from a printed unit |
| IpResolver.AddressMerges | internal/plugin/ip_resolver.go:206-217 | two valid IPs are one address exactly when their 16-byte forms agree, so IPv4-mapped addresses merge into v4 |
| IpResolver.AddressIs | internal/plugin/ip_resolver.go:200-219 | which address an IP of any length stands for, with the mapped prefix written out |
| IpResolver.PublicIPResolver.AddIPs | internal/plugin/ip_resolver.go:200-219 | adds exactly the valid addresses, each to its family |
| IpResolver.PublicIPResolver.Resolve | internal/plugin/ip_resolver.go:221-295 | two or more resolvers: in every order of completion the addresses are the union over the successful ones, families disjoint, an error iff nothing was found and some error was received and joined before the errors are looked at, right after the wait; one resolver: addresses are added only on an error; none: an error |
| HclBuilder.AppendsAttribute | internal/remoteflight/hcl/builder.go:73-76 | one node more, at the end of the body of that builder wherever it sits in the document; the document stays one tree |
| HclBuilder.AppendsBlock | internal/remoteflight/hcl/builder.go:80-85 | one empty block more with a new builder; every builder stays the body of exactly one block, and nodes correspond to appended entries |
| HclBuilder.TreeGrows | internal/remoteflight/hcl/builder.go:59-85 | appending to one builder, attached or not, changes nothing else |
| HclBuilder.EmittedIff | internal/remoteflight/hcl/builder.go:47-70 | every entry is written exactly once, in order and in its own body, iff no body repeats an attribute key |
| HclBuilder.LastValueCounts | internal/remoteflight/hcl/builder.go:47-70 | what is written where attributes are repeated: each key once in a body, with the value appended last, and every block |
| HclBuilder.Builder.AppendAttribute | internal/remoteflight/hcl/builder.go:73-76 | the heap method does that to the document and returns its receiver |
| HclBuilder.Builder.AppendBlock | internal/remoteflight/hcl/builder.go:80-85 | the heap method does that and returns a fresh builder of the same document |
| HclBuilder.Builder.AppendAttributes | internal/remoteflight/hcl/builder.go:89-95 | appends all attributes in an arbitrary order |
| HclBuilder.Builder.BuildHCL | internal/remoteflight/hcl/builder.go:98-109 | terminates, fails iff a value has no cty type, and otherwise writes the document |
| HclDocument.Grafted | internal/remoteflight/hcl/builder.go:80-85 | a block shows whatever its builder holds by now, also what was appended after it was attached |
| HclDocument.AppendFilled | internal/remoteflight/hcl/builder.go:80-95 | a block with attributes adds exactly that block |
| HclDocument.WrittenOutIff | internal/remoteflight/hcl/builder.go:98-109 | BuildHCL writes the document as it stands iff no body repeats an attribute key |
| SealEnv.NameIsUpper | internal/plugin/resource_vault_start.go:1039-1190 | every variable is its lower-case spelling in upper case, seal by seal |
| SealEnv.SealTypes | internal/plugin/resource_vault_start.go:1010-1037 | the seven seal types and their translators |
| SealEnv.AliCloudVariables | internal/plugin/resource_vault_start.go:1039-1057 | the variables of alicloudkms by name |
| SealEnv.AWSKeyVariables | internal/plugin/resource_vault_start.go:1059-1078 | the variables of the two keys of awskms |
| SealEnv.AWSVariables | internal/plugin/resource_vault_start.go:1059-1078 | the other variables of awskms |
| SealEnv.AzureVariables | internal/plugin/resource_vault_start.go:1080-1099 | the variables of azurekeyvault by name |
| SealEnv.GCPVariables | internal/plugin/resource_vault_start.go:1101-1118 | the variables of gcpckms by name |
| SealEnv.HSMVariables | internal/plugin/resource_vault_start.go:1120-1137 | the variables of pkcs11 by name |
| SealEnv.HSMLabelVariable | internal/plugin/resource_vault_start.go:1120-1137 | the variable of the default HMAC key label of pkcs11 |
| SealEnv.OCIVariables | internal/plugin/resource_vault_start.go:1139-1156 | the variables of ocikms by name |
| SealEnv.TransitAccessVariables | internal/plugin/resource_vault_start.go:1158-1190 | address, token and namespace of transit |
| SealEnv.TransitSealVariables | internal/plugin/resource_vault_start.go:1158-1190 | key, mount path and renewal of transit |
| SealEnv.TransitTLSVariables | internal/plugin/resource_vault_start.go:1158-1190 | the TLS settings of transit, without the prefix but for the server name |
| SealEnv.TransitRefuses | internal/plugin/resource_vault_start.go:1158-1190 | transit refuses exactly the attributes that are not listed |
| SealEnv.AttrStringIs | internal/plugin/resource_vault_start.go:990-1007 | strings as they are, integers in decimal, nothing else |
| Decimals.DigitsSpell | internal/plugin/resource_vault_start.go:1002-1003 | the decimal digits spell the number without leading zeros |
| SealEnv.SharesVariableIff | internal/plugin/resource_vault_start.go:1039-1190 | two attributes with lower-case keys set the same variable exactly when one is the documented alias of the other |
| SealEnv.NeverReserved | internal/plugin/resource_vault_start.go:616-646 | no attribute, whatever its key, sets VAULT_SEAL_TYPE or one of the four scalar variables |
| SealEnv.DroppedIff | internal/plugin/resource_vault_start.go:1039-1190 | only name, priority and transit's key_id_prefix are dropped |
| SealEnv.ToEnvVars | internal/plugin/resource_vault_start.go:1010-1190 | fails exactly for an unknown seal, no attributes or an attribute that cannot be translated; otherwise every variable comes from an attribute and every attribute with a variable sets it, plus VAULT_SEAL_TYPE; the result is that of visiting the attributes in some order of their keys |
| SealEnv.VisitSome | internal/plugin/resource_vault_start.go:1039-1190 | a translation fails in every order of the attributes or in none, exactly when one of them cannot be translated |
| SealEnv.VisitComes | internal/plugin/resource_vault_start.go:1039-1190 | in every order: each variable has the value of an attribute that sets it, and each attribute with a variable sets it |
| SealEnv.LastWins | internal/plugin/resource_vault_start.go:1039-1190 | for every attribute there is an order in which its value ends up in its variable, whatever the others set |
| SealEnv.ReadsBack | internal/plugin/resource_vault_start.go:1039-1190 | if attributes that share a variable agree, every attribute that has a variable can be read back from it |
| SealEnv.OrderIrrelevantIff | internal/plugin/resource_vault_start.go:1039-1190 | any two orders of visiting the keys give the same variables exactly when attributes that share a variable have the same value, for every seal and all attributes that can be translated; with lower-case keys, exactly when every attribute agrees with its alias |
| SealEnv.SharedAgreeIff | internal/plugin/resource_vault_start.go:1039-1190 | with lower-case keys, attributes that share a variable agree exactly when aliases do |
| SealEnv.AliasLosesAValue | internal/plugin/resource_vault_start.go:1059-1078 | an instance: with two values for the two spellings of the AWS secret key two orders of visiting them give different variables |
| VaultRender.AppendListener | internal/plugin/resource_vault_start.go:648-664 | the listener block with its attributes and up to four nested blocks |
| VaultRender.AppendSeal | internal/plugin/resource_vault_start.go:666-681 | a block in file mode, variables in env mode, nothing for shamir |
| VaultRender.AppendSeals | internal/plugin/resource_vault_start.go:686-726 | the HA seals with their default priority and name, in every order of the map; in the environment only when there is at most one |
| VaultRender.AppendRetryJoin | internal/plugin/resource_vault_start.go:745-763 | the retry_join block as configured or with the defaults; an error iff the defaults need an unknown cluster name |
| VaultRender.AppendStorage | internal/plugin/resource_vault_start.go:728-765 | the storage block with the defaults of integrated storage |
| VaultRender.Render | internal/plugin/resource_vault_start.go:608-771 | success condition; the document up to the order of entries, with no repeated key; no environment in file mode, and in env mode exactly the scalars and the moved seal |
| VaultSettings.ModesAgree | internal/plugin/resource_vault_start.go:608-771 | for what Render has returned in the two modes, under any iteration order of either call: api_addr, cluster_addr, ui and log_level are attributes of the file document and the four variables of the env mode, with the same values; every entry of either document is accounted for (DocumentStands); the file document is the env document and exactly what moves; so are the files that BuildHCL writes from them; the file mode sets no variable, and the env mode carries what has moved (EnvCarriesSettings) |
| VaultRender.RenderedIsWritten | internal/plugin/resource_vault_start.go:838-851 | what BuildHCL writes for a rendered configuration is the configuration of the mode, each entry once |
| VaultRender.RenderHCL | internal/plugin/resource_vault_start.go:838-851 | Render followed by BuildHCL gives an error or the whole configuration of the mode, and no error if the configuration can be rendered and every value encoded |
| VaultSettings.EnvCarriesSettings | internal/plugin/resource_vault_start.go:616-726 | whichever of the single seal and a lone HA seal there are: each scalar is in its own variable; every attribute of a moved seal that has a variable can be read back, the HA seal taking precedence where both set one, the seal type among them; nothing else is set |
| VaultSettings.ScalarsCarried | internal/plugin/resource_vault_start.go:616-646 | in env mode VAULT_API_ADDR, VAULT_CLUSTER_ADDR, VAULT_UI and VAULT_LOG_LEVEL are set exactly if their settings are, and to them, whatever the seals set |
| VaultSettings.DocumentStands | internal/plugin/resource_vault_start.go:608-771 | every entry of the document in either mode: the scalars, enable_multiseal, the listener with its sections, the seals with default priority and name, the storage with the defaults of integrated storage, the telemetry, and nothing else |
| VaultSettings.CanRenderIff | internal/plugin/resource_vault_start.go:608-771 | the configurations that can be rendered in a mode, in terms of their settings |

## Left out

- Schemas, descriptions, templates, String dumps, logging, functional options and the gRPC shims: no hard property.
- Real SSH, Kubernetes, Nomad, HTTP, DNS and file system calls: replies are parameters, scripts are fixed strings during a cycle.
- The msgpack encoding of dynamic pseudo types, tfObjectSlice and the type conformance of tftypes.
- JSON, tar, hclwrite and cty formats: bodies arrive decoded, tar headers are strings, BuildHCL ends in a tree and not in text.
- The 64 KB token limit of bufio.Scanner, and writes of no bytes to stdout and stderr.
- The Go libraries are not part of the repository. Taken from their documentation: `Is` of a tftypes list or map compares the kind only, a refused tar header leaves the tar writer usable, a tar writer flushes before a header, again before it writes one that it has accepted, and before its trailer, and the last write of header and body is not empty.
- Wall-clock time: waits are recorded, not waited for; a deadline is a context that is found done.
- The moment within an operation at which a context turns done, other than at the polls modelled; ComputeSHA256 gets the number of its first refused poll.
- Deletion, import, read and upgrade of enos_remote_exec, and the failure handlers that the router calls: no state of interest.
- Terraform itself: that it keeps the prior state when a failed apply returns none is the function RemoteExecResource.Kept.
- enos_local_exec, which never fills an unknown sum at apply.
- transportReplacedAttributePaths, which discards the paths it collects, and the tertiary seal, which is serialized from the secondary one.
- The text of IP addresses: the two maps keyed by it are sets of addresses.
- Upper-casing of letters outside ASCII in seal attribute keys.
- Version parsing, release URLs, package installers and user creation: thin or bound to I/O.
- VaultInit.WaitForState: the replies of a try are values, so what a try changes on the node is not modelled.
- Retry.Retrier.Retry: the nil request and the missing function are not modelled.
