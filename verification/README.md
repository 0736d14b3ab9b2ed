# Sentinel-KDE, modelled and proved in Dafny

Sentinel-KDE replaces password prompts by a confirmation dialog. Whether a privileged
request may pass without a password is decided by a few small stateful programs: a polkit
agent, a PAM module, a dialog helper, a remember broker, and the scripts that install them
and wire them into the PAM stacks. This project models those programs and proves what
holds over all of their inputs, runs and interleavings. `dafny verify dfyconfig.toml`
checks all of it.

- **The polkit agent** (`AgentModel`, `AgentSessions`, `AgentHistory`, `AgentDecisions`, `AgentLeftovers`,
  `AgentScript`, `Agent`; with `ApprovalQueue`, `RememberCache`, `Grants`). One step is the code between two
  await points; calls, session tasks, cancels (two steps: drain, then abort), root's
  `TakeApproval` and the clock interleave freely. `AgentModel.Next` is the protocol. The class
  `Agent.Agent` does each step on mutable state and carries a ghost trace, a run of the
  protocol that leads to its state; `Authenticate`, `RunSession` and `Cancel` are
  `begin_authentication`, `session::run` and `cancel_authentication` from start to end, with the
  others moving at every await.
- **The remember broker and its clients** (`BrokerProto`, `BrokerStore`, `BrokerServer`,
  `BrokerWorld`). Length-prefixed frames, the pruned store, and a world in which any number
  of PAM processes meet one broker over connections that may fail at any byte.
- **The PAM module's decision** (`PamAuth`, `ProcInfo`, `Policy`, `Config`) and **command
  analysis** (`Text`, `Elevation`).
- **The dialog** (`Countdown`), the verdict line between helper and parent (`VerdictWire`,
  in `Verdict.dfy`) and the audit line quoting (`LogKv`).
- **The installer** (`Installer`): the undo log and its three replays on a map of files; and
  **PAM wiring** (`PamStack`): the text edit, its undoing, and the meaning of the edited stack
  under the control rules of pam.conf(5) (the values each keyword stands for, section
  "pam.conf/pam.d FILES" of the Linux-PAM manual page).

D-Bus, processes, clocks, `/proc`, the codec and the dialog appear as inputs or as events of
the environment. Time is nanoseconds of the monotonic clock. Fields that exist only to state
properties (histories, marks) are ghost or kept in `AgentModel.Log`.

## Where code and prose disagree

The model follows the code. All but the last point, which is about older prose, are lemmas.

- `packaging-kde/install.sh:11-12` says any error rolls back. `error` (line 42) leaves by `exit`,
  which raises no ERR trap, so a failed check at lines 413-444 leaves every file in place and
  drops the log: `Installer.ErrorExitRestoresExactlyWhen`, `Installer.ErrorExitLeftovers`.
- `crates/sentinel-polkit-agent/src/approval_queue.rs:73-76` says at most one approval is queued.
  `AgentLeftovers.CommentHoldsExactlyWhen`: it is true throughout a run if and only if every
  `begin_authentication` returns with the queue empty. `ExitLeavesExactlyWhen` says which ends of a
  session leave something in it, `CommentHoldsExactlyWhenSettled` puts the condition in terms of
  pushes, takes, drains and returns, `WhoseApprovals` what is true of every run, and
  `FailedHandoffMispairs`, `UntakenSuccessMispairs`, `SplitCancelMispairs` are runs on which the
  next session's helper-1 is answered with the leftover.
- `crates/pam-sentinel/src/helper.rs:206-208` says a verdict line longer than the buffer parses as
  Deny. `VerdictWire.ReadsAsAllow` says exactly which output reads as Allow;
  `LongLineReadsAsAllow` and `TruncationMakesAnAllow` are the two ways to be longer and do so.
- `crates/pam-sentinel/src/helper.rs:172-184` promises slack on top of the helper's own limit.
  `Countdown.ParentOutlastsTheDialog`: it is there if and only if the timeout is at most 2147478 s.
  Above that the product leaves `i32` and wraps (the release profile in `Cargo.toml` has no overflow
  checks), and above `i32::MAX` seconds a fallback of 30 s is taken. `Countdown.SlackIsLost`: at
  2147480 s the slack is 3647 ms, at 4294963 s the parent gives up after 704 ms and at 2147483648 s
  after 35 s, while the dialog is to last for `i32::MAX` milliseconds. The helper's own tick counter
  leaves `i32` for timeouts above 2147483 s and for timeout 0 (`Countdown.TooLongOverflows`); no
  such run ever ends in Timeout (`Countdown.NeverTimesOut`).
- `packaging-kde/install.sh:209-213`: without an anchor, `grep -v` on a stack of nothing but header
  lines selects nothing, and its status ends the install (`PamStack.WiringFailsExactlyWhen`).
- `crates/sentinel-broker/src/store.rs:41-46`: the flattened key is unique exactly for keys without a
  NUL in service and command (`BrokerStore.KeyStrUnique`); NUL-free services suffice between
  themselves (`BrokerStore.KeyStrInjective`).
- After a failed reinstall the disk is the one from before the first install, not the one from
  before the run: the previous install is reverted first (`Installer.HistoriesAreUndone`).
- `config/sentinel.conf:153-162` (pkexec never remembered, grants keyed by program name) and
  `docs/src/architecture.md:84-86` (identity fallback) describe older behaviour.

## Model

| member | source | states |
|---|---|---|
| Text.Split | crates/sentinel-shared/src/lib.rs:687-688 | `split_whitespace` yields only non-empty words without whitespace |
| Text.SplitJoin | crates/sentinel-shared/src/lib.rs:714 | splitting a joined list of words gives the list back |
| Text.SplitTrim | crates/pam-sentinel/src/proc_info.rs:15-18 | trimming never changes the words of a line |
| Text.TrimJoin | crates/sentinel-shared/src/lib.rs:714 | a joined list of words has nothing to trim |
| Text.TrimIs | crates/sentinel-shared/src/lib.rs:789-794 | trimming takes off whitespace at both ends, and all of it, and nothing else |
| Text.TrimIdempotent | crates/sentinel-shared/src/lib.rs:789-794 | trimming twice is trimming once |
| Text.FileName | crates/sentinel-shared/src/lib.rs:722-726 | a file name is never empty, `.`, `..` or a path |
| Text.FileNameOf | crates/sentinel-shared/src/lib.rs:722-726 | a plain name is its own file name, bare or under any directory |
| Text.FileNameIgnoresTrail | crates/sentinel-shared/src/lib.rs:722-726 | trailing slashes and `/.` do not change the file name |
| Text.NoFileName | crates/sentinel-shared/src/lib.rs:722-726 | a path that ends in `..`, and the empty path, have no file name |
| Elevation.DropFlags | crates/sentinel-shared/src/lib.rs:643-669 | what is kept is a suffix of the words and does not start with an option |
| Elevation.DropFlagsAt | crates/sentinel-shared/src/lib.rs:697-709 | one turn of the option loop: two words for an option with a value, one for another option, stop at the first positional |
| Elevation.OptionsAreDropped | crates/sentinel-shared/src/lib.rs:697-709 | a row of options, values included, in front of a positional word is dropped whole, and nothing behind it is |
| Elevation.StripOfWords | crates/sentinel-shared/src/lib.rs:687-715 | a line of a tool, options and words from a positional one on strips to exactly those words |
| Elevation.WrappersByName | crates/sentinel-shared/src/lib.rs:687-696 | bare or under any directory the five elevation tools are wrappers, and no other plain program is |
| Elevation.UserIsNoTarget | crates/sentinel-shared/src/lib.rs:697-715 | `sudo -u` and a user, under any directory, strips to the words behind that user |
| Elevation.LoneOptionHasNoTarget | crates/sentinel-shared/src/lib.rs:697-715 | `sudo` with one word that starts with a dash strips to nothing |
| Elevation.StripElevationPrefix | crates/sentinel-shared/src/lib.rs:687-715 | the method computes the specification `Strip` |
| Elevation.FirstPositional | crates/sentinel-shared/src/lib.rs:697-709 | the index loop ends at the words the specification keeps, or past the end when nothing is left |
| Elevation.StripChanges | crates/sentinel-shared/src/lib.rs:687-715 | stripping changes a line if and only if its program is an elevation tool or it is non-empty and blank |
| Elevation.StripOfWrapper | crates/sentinel-shared/src/lib.rs:687-715 | what is left of a wrapper is trimmed, and splits into a proper suffix of its words that does not start with an option |
| Elevation.StripReachesFixedPoint | crates/sentinel-shared/src/lib.rs:687-715 | as many strips as there are words reach a fixed point, for every line |
| Elevation.FixedPointIsNoWrapper | crates/sentinel-shared/src/lib.rs:687-715 | a line that stripping leaves alone is no wrapper |
| Elevation.EligibleIsStripped | crates/sentinel-shared/src/lib.rs:740-764 | an eligible command is no wrapper and a fixed point of stripping |
| Elevation.IneligibleByName | crates/sentinel-shared/src/lib.rs:740-764 | whether a command may be remembered is told by the name of its program, under any directory |
| Elevation.KeyKeepsEligibility | crates/sentinel-shared/src/lib.rs:777-794 | narrowing to the grant key keeps eligibility both ways and keeps all words, or exactly the first |
| Elevation.KeyNarrowsOnce | crates/sentinel-shared/src/lib.rs:777-794 | narrowing twice is narrowing once by the coarser scope |
| Policy.DecidedByNames | crates/sentinel-shared/src/lib.rs:400-427 | Deny if and only if a deny entry is the action id, the whole program path or, without a slash, the file name; Allow if and only if none is and an allow entry is |
| Policy.ActionsMatchExactly | crates/sentinel-shared/src/lib.rs:410-427 | an entry that does not name the program matches exactly the action id equal to it |
| Policy.NothingMatchesNothing | crates/sentinel-shared/src/lib.rs:400-427 | with no program and no action every policy asks |
| Policy.DenyIsMonotone | crates/sentinel-shared/src/lib.rs:400-408 | more deny entries never make an allow, and a deny match wins over any allow |
| Policy.AllowIsMonotone | crates/sentinel-shared/src/lib.rs:400-408 | more allow entries turn exactly the asks they match into allows and move no denial |
| Policy.BareNamesMatchByBasename | crates/sentinel-shared/src/lib.rs:410-427 | a bare entry matches the program under every directory, a path entry only that path |
| ProcInfo.RememberCommandForIs | crates/pam-sentinel/src/proc_info.rs:15-18 | a remember command exists exactly for an eligible line, trimmed and still eligible |
| ProcInfo.RememberCommandSound | crates/pam-sentinel/src/proc_info.rs:47-120 | over all three paths a remember command exists if and only if the stripped line is eligible; it is eligible, trimmed and a fixed point of stripping |
| ProcInfo.BareElevation | crates/pam-sentinel/src/proc_info.rs:67-107 | nothing for the policy to match exactly when stripping leaves nothing of a non-empty line; then nothing is remembered; otherwise a wrapper's target is its first word left |
| ProcInfo.PlainProcess | crates/pam-sentinel/src/proc_info.rs:101-107 | of a process that is no wrapper the policy sees the executable, whatever its command line says |
| ProcInfo.PathsAgree | crates/sentinel-polkit-agent/src/agent.rs:120-150 | the PAM path and the agent path get the same program, eligibility and key from the same wrapper line |
| ProcInfo.ForwardedWins | crates/sentinel-polkit-agent/src/agent.rs:115-150 | forwarded details win; the caller's line is used if and only if it is a wrapper with a target; else the subject's program |
| VerdictWire.ParsePrint | crates/sentinel-shared/src/lib.rs:148-166 | a printed verdict parses to itself, with the opt-in kept exactly on Allow |
| VerdictWire.PrintParseStable | crates/sentinel-shared/src/lib.rs:148-166 | for any line that parses, print after parse is a stable canonical form |
| VerdictWire.AllowNeedsTheWord | crates/sentinel-shared/src/lib.rs:158-166 | Allow is parsed if and only if the first word is exactly ALLOW, the opt-in only from a later REMEMBER |
| VerdictWire.Line | crates/sentinel-helper-kde/src/bridge.rs:267-281 | every line `finish` writes fits the 16-byte buffer |
| VerdictWire.VerdictSurvivesThePipe | crates/pam-sentinel/src/helper.rs:206-237 | the reader recovers every verdict the helper writes, whatever ASCII text follows |
| VerdictWire.GarbageBehindDenies | crates/pam-sentinel/src/helper.rs:206-237 | bytes behind a verdict that make the buffer no UTF-8 turn any verdict into a Deny |
| VerdictWire.ReadsAsAllow | crates/pam-sentinel/src/helper.rs:206-237 | the reader returns Allow if and only if the first line of the first 16 bytes has ALLOW as its first word |
| VerdictWire.LongLineReadsAsAllow | crates/pam-sentinel/src/helper.rs:206-208 | a line of any length after `ALLOW ` reads as Allow |
| VerdictWire.TruncationMakesAnAllow | crates/pam-sentinel/src/helper.rs:206-237 | a line that does not parse can read as Allow once cut at 16 bytes |
| LogKv.Quote | crates/sentinel-shared/src/lib.rs:1071-1092 | the buffer loop computes the quoting specification |
| LogKv.ScanEscaped | crates/sentinel-shared/src/lib.rs:1081-1090 | a scanner undoes the escaping and stops at the closing quote |
| LogKv.QuoteIsSelfDelimiting | crates/sentinel-shared/src/lib.rs:1071-1092 | a left-to-right scanner recovers value and rest from a quoted value followed by nothing or a space |
| LogKv.LinesAreInjective | crates/sentinel-shared/src/lib.rs:1063-1092 | lines with the same literal keys are equal only if all values are |
| Countdown.DialogController.constructor | crates/sentinel-helper-kde/src/bridge.rs:119-184 | the fields start as the model's opened dialog |
| Countdown.DialogController.OnTick | crates/sentinel-helper-kde/src/bridge.rs:196-220 | a tick moves the fields as the model's step, `i32` wrap-around included |
| Countdown.DialogController.OnAllow | crates/sentinel-helper-kde/src/bridge.rs:224-232 | Allow ends the dialog exactly when enabled, in Allow, with the opt-in if offered and ticked |
| Countdown.DialogController.OnDeny | crates/sentinel-helper-kde/src/bridge.rs:235-237 | Deny ends the dialog at once in a bare Deny |
| Countdown.TickStaysInRange | crates/sentinel-helper-kde/src/bridge.rs:196-220 | for 1 to 2147483 s no `i32` step overflows, and the invariant of an `n`-tick run is kept |
| Countdown.EveryRun | crates/sentinel-helper-kde/src/bridge.rs:184-237 | over every run the seconds shown are the time left rounded up and reach 0 on tick 10 * timeout only; Timeout only then, Allow only after the minimum display time, the opt-in if and only if Allow, offered and ticked |
| Countdown.RemainingOnlyFalls | crates/sentinel-helper-kde/src/bridge.rs:196-220 | no event raises the seconds shown |
| Countdown.ProgressIsExact | crates/sentinel-helper-kde/src/bridge.rs:196-220 | over every run the progress is the exact share of the time that has passed |
| Countdown.LeftAlone | crates/sentinel-helper-kde/src/bridge.rs:196-220 | left alone, Timeout comes on exactly tick 10 * timeout |
| Countdown.VerdictIsTheFirstDecision | crates/sentinel-helper-kde/src/bridge.rs:184-237 | the verdict of every run from its events: of the first Deny press, Allow press once the minimum time is over, or last tick, whatever the timeout, `i32` wrap-around included; the opt-in is the last state of the box, if offered; None exactly if none of these came |
| Countdown.MayAllowExactlyWhen | crates/sentinel-helper-kde/src/bridge.rs:196-203 | Allow may be pressed from the tick on which the minimum display time is over, up to the wrap-around and so for every timeout that fits |
| Countdown.NoPressNoAllow | crates/sentinel-helper-kde/src/bridge.rs:224-237 | a run without an Allow press, or with early ones only, never ends in Allow |
| Countdown.TooLongOverflows | crates/sentinel-helper-kde/src/bridge.rs:139-140 | with timeout 0 and above 2147483 s nothing times out on the way to tick 21474836, and the next sum leaves `i32` |
| Countdown.NeverTimesOut | crates/sentinel-helper-kde/src/bridge.rs:139-220 | with timeout 0 and above 2147483 s no run of any length ends in Timeout, wrap-around included: the elapsed count stays even, the saturated total is odd |
| Countdown.ParentOutlastsTheDialog | crates/pam-sentinel/src/helper.rs:172-185 | for every u32, `i32` wrap-around included: no limit exactly at 0; otherwise the dialog plus 5000 ms if and only if the timeout is at most 2147478 s, and no less than the dialog if and only if it is at most 2147478 s, or at most `i32::MAX` with a product that wraps to a negative number |
| Countdown.SlackIsLost | crates/pam-sentinel/src/helper.rs:172-185 | at 2147480 s the slack is 3647 ms, at 4294963 s the parent polls 704 ms, at 2147483648 s 35 s |
| ApprovalQueue.Take | crates/sentinel-polkit-agent/src/approval_queue.rs:53-63 | a take answers only an unexpired entry, and everything before it had expired |
| ApprovalQueue.ApprovalQueue.Push | crates/sentinel-polkit-agent/src/approval_queue.rs:43-49 | a push appends the approval with its expiry |
| ApprovalQueue.ApprovalQueue.TakeOne | crates/sentinel-polkit-agent/src/approval_queue.rs:53-63 | the pop loop answers and leaves what the specification says |
| ApprovalQueue.ApprovalQueue.Drain | crates/sentinel-polkit-agent/src/approval_queue.rs:77-80 | a drain leaves nothing |
| ApprovalQueue.StepKeepsValid | crates/sentinel-polkit-agent/src/approval_queue.rs:43-80 | expiry order is kept by every operation, and nothing outlives a push made now |
| ApprovalQueue.TakeIsIdeal | crates/sentinel-polkit-agent/src/approval_queue.rs:53-63 | on a queue in expiry order a take answers the first live entry and leaves no expired one |
| ApprovalQueue.ExpiredAreDropped | crates/sentinel-polkit-agent/src/approval_queue.rs:53-63 | a take drops an expired entry with all before it and answers only beyond it |
| ApprovalQueue.LivesOneSecond | crates/sentinel-polkit-agent/src/approval_queue.rs:24-63 | an approval behind none that still lives is answered by a take exactly within one second of its push |
| ApprovalQueue.LazyAnswersAsIdeal | crates/sentinel-polkit-agent/src/approval_queue.rs:43-80 | over every run the lazy queue answers like one that drops entries the instant they expire |
| ApprovalQueue.NothingIsLost | crates/sentinel-polkit-agent/src/approval_queue.rs:43-80 | over every run, queued before and pushed equals taken, expired, drained and still queued, as multisets |
| Grants.FirstField | crates/sentinel-broker/src/store.rs:41-46 | the first NUL separates the fields uniquely |
| Grants.RecordPrunes | crates/sentinel-broker/src/store.rs:63-67 | after a recording the map has it, and of the others exactly those younger than 900 s, untouched |
| Grants.FreshExactlyWhen | crates/sentinel-broker/src/store.rs:51-59 | a recorded key is fresh for exactly the shorter of the time asked for and 900 s |
| Grants.RecordAgrees | crates/sentinel-broker/src/store.rs:63-67 | recording with pruning keeps the map in agreement with the never-pruned history |
| Grants.SameAnswers | crates/sentinel-broker/src/store.rs:51-59 | a map in agreement is fresh exactly when the history has a young enough recording |
| Grants.FlatAnswers | crates/sentinel-broker/src/store.rs:41-59 | for any kind of key, if no recorded key shares this key's string, the flattened history answers like the history of keys |
| RememberCache.FlatAnswers | crates/sentinel-polkit-agent/src/remember.rs:39-41 | for NUL-free actions the flattened history answers like the history of (action, command) pairs |
| RememberCache.KeyInjective | crates/sentinel-polkit-agent/src/remember.rs:39-41 | pairs of NUL-free actions with one string are equal |
| RememberCache.RememberCache.IsFresh | crates/sentinel-polkit-agent/src/remember.rs:47-55 | fresh if and only if ttl > 0 and this very action and command were recorded less than min(ttl, 900 s) ago |
| RememberCache.RememberCache.Remember | crates/sentinel-polkit-agent/src/remember.rs:59-64 | recording prunes, inserts and stays in agreement with the history |
| BrokerProto.ToLe | crates/sentinel-broker-proto/src/lib.rs:160 | the length header reads back |
| BrokerProto.WriteFrame | crates/sentinel-broker-proto/src/lib.rs:155-164 | writes exactly one frame, or on an error nothing |
| BrokerProto.ReadFrame | crates/sentinel-broker-proto/src/lib.rs:169-179 | result, bytes left and buffer made are those of the specification, errors included |
| BrokerProto.FrameReadsBack | crates/sentinel-broker-proto/src/lib.rs:155-179 | a frame with anything behind it reads back as its message and leaves exactly the rest |
| BrokerProto.FramesReadBack | crates/sentinel-broker-proto/src/lib.rs:155-179 | any list of messages written and read frame by frame comes back, with the tail left |
| BrokerProto.FramedExactlyWhen | crates/sentinel-broker-proto/src/lib.rs:155-164 | a message makes a frame if and only if it can be encoded in at most 64 KiB |
| BrokerProto.WriteAllFrames | crates/sentinel-broker-proto/src/lib.rs:155-164 | writing message after message appends exactly their frames |
| BrokerProto.CutFrameIsAnError | crates/sentinel-broker-proto/src/lib.rs:169-179 | every proper prefix of a frame is an I/O error |
| BrokerProto.OverlongHeaderIsRefused | crates/sentinel-broker-proto/src/lib.rs:169-175 | an over-long header is refused after four bytes with no body buffer |
| BrokerStore.DecReadsBack | crates/sentinel-broker/src/store.rs:41-46 | the decimal rendering of an id reads back and holds no NUL |
| BrokerStore.KeyStrInjective | crates/sentinel-broker/src/store.rs:41-46 | keys of NUL-free services with one string are equal |
| BrokerStore.KeyStrUnique | crates/sentinel-broker/src/store.rs:41-46 | a key shares its string with no other if and only if service and command hold no NUL |
| BrokerStore.RememberStore.IsFresh | crates/sentinel-broker/src/store.rs:51-59 | the pruned map answers as the full history of this exact key |
| BrokerStore.RememberStore.Record | crates/sentinel-broker/src/store.rs:63-67 | prunes, inserts, and stays in agreement with the history |
| BrokerStore.StoreAnswersAsHistory | crates/sentinel-broker/src/store.rs:41-67 | over every run of recordings, queries and time the store answers like the never-pruned history |
| BrokerServer.Dispatch | crates/sentinel-broker/src/server.rs:69-88 | response and new store for every request; an unbindable key is never looked up or recorded |
| BrokerServer.Handle | crates/sentinel-broker/src/server.rs:25-44 | a peer that is not root is not read, changes nothing and gets no answer; of root one whole request is served and answered; anything else drops the connection with the store untouched |
| BrokerServer.RecordThenCheck | crates/sentinel-broker/src/server.rs:69-88 | a recorded key is granted afterwards for exactly the capped window, if and only if it is bindable, whatever the store held |
| BrokerServer.OnlyBoundRecordingsAreKept | crates/sentinel-broker/src/server.rs:69-88 | questions never change the store, and a recording without login, session or command is an error and is not kept |
| BrokerServer.ClientFailsClosed | crates/pam-sentinel/src/broker_client.rs:37-54 | the client gets the broker's answer from a whole reply and nothing from any cut one |
| BrokerServer.BrokerActsOnWholeFrames | crates/sentinel-broker/src/server.rs:25-45 | a request cut at any byte is not acted on |
| PamAuth.CheckPolicy | crates/pam-sentinel/src/lib.rs:285-315 | allow, deny and no decision follow the policy on the resolved target |
| PamAuth.RememberKeyFor | crates/pam-sentinel/src/lib.rs:108-125 | the key exists only with both ids and a rememberable command |
| PamAuth.SpawnDialog | crates/pam-sentinel/src/lib.rs:381-384 | success exactly on Allow, the opt-in exactly on Allow with remember |
| PamAuth.SmAuthenticate | crates/pam-sentinel/src/lib.rs:59-177 | result, reason, messages to the broker and offered window for every input |
| PamAuth.DenyEntryStopsTheTarget | crates/pam-sentinel/src/lib.rs:285-315 | whatever answers and options: a tool, any options the loop reads to their end, then the denied name under any directory is PAM_AUTH_ERR with nothing sent |
| PamAuth.TargetIsFirstLeft | crates/pam-sentinel/src/proc_info.rs:67-107 | what the policy sees of such a line is the first word behind the options, whatever that word is for the tool |
| PamAuth.DenyEntrySeesOnlyTheFirstLeft | crates/pam-sentinel/src/lib.rs:285-315 | a single bare deny entry denies a wrapper line if and only if the first word behind the options has that file name, so a value of an unlisted option, an assignment or a user in that place escapes it |
| PamAuth.DenyEntryStopsTheProcess | crates/pam-sentinel/src/lib.rs:285-315 | for a process that is no wrapper a deny entry with its path or file name is PAM_AUTH_ERR with nothing sent, whatever its command line |
| PamAuth.PlainProcessIsItsExecutable | crates/pam-sentinel/src/lib.rs:285-315 | a single entry denies, or allows, such a process if and only if it is its path or, without a slash, its file name |
| PamAuth.NothingElseDecides | crates/pam-sentinel/src/lib.rs:285-315 | two such calls with one executable and one policy get one decision |
| PamAuth.BareElevationIsTheDialogs | crates/pam-sentinel/src/lib.rs:285-315 | a wrapper without target is the dialog's decision alone and nothing is recorded |
| PamAuth.KeyIsSound | crates/pam-sentinel/src/lib.rs:108-125 | every key is bindable, eligible, no wrapper, and carries the call's ids, service and narrowed command |
| PamAuth.KeyExactlyWhen | crates/pam-sentinel/src/lib.rs:108-130 | a key exists if and only if both ids are set and the stripped command is eligible |
| PamAuth.GrantSparesTheDialog | crates/pam-sentinel/src/lib.rs:131-147 | where the policy asks and a window is configured, the broker's yes is success with no dialog and one message, about this key and window |
| PamAuth.RecordedExactlyWhenOptedIn | crates/pam-sentinel/src/lib.rs:140-176 | a grant is sent for recording if and only if a window was offered and the verdict was Allow with remember |
| PamAuth.SentIsOwn | crates/pam-sentinel/src/lib.rs:108-176 | every message to the broker carries the call's own key and window, a recording only beside a success |
| BrokerWorld.NextKeepsInv | crates/sentinel-broker/src/server.rs:25-88 | every step, with bytes lost anywhere, late answers and restarts, keeps that grants, store, connections and processes trace to opt-ins |
| BrokerWorld.RunKeepsInv | crates/sentinel-broker/src/server.rs:25-88 | so does every run |
| BrokerWorld.YesIsJustified | crates/pam-sentinel/src/broker_client.rs:48-54 | a yes that reaches the client was justified when the broker gave it, during the client's call |
| BrokerWorld.StrangersChangeNothing | crates/sentinel-broker/src/server.rs:29-31 | a peer that is not root changes nothing, in any world and with any bytes |
| BrokerWorld.RememberedMeansOptedIn | crates/pam-sentinel/src/lib.rs:108-176 | a remembered success goes back to another call's ALLOW REMEMBER for the same login, session, service and key, recorded less than min(ttl, 900 s) before the broker's yes during this call |
| BrokerWorld.RememberingWorks | crates/pam-sentinel/src/lib.rs:108-176 | the converse: after an opt-in whose recording is served, a later call with the same key that reaches the broker succeeds without its dialog, while its window and 900 s last |
| BrokerWorld.ProcessesAuthenticate | crates/pam-sentinel/src/lib.rs:59-177 | however connections fail, every finished call has the result and reason of `sm_authenticate` for what reached it |
| BrokerWorld.EverySuccessHasAReason | crates/pam-sentinel/src/lib.rs:59-177 | in every run, with messages lost and the broker restarting, every success has the agent's approval, the administrator's setting, an Allow of its own dialog, or a young grant that another call's ALLOW REMEMBER gave for the same key |
| AgentSessions.NextKeepsStructure | crates/sentinel-polkit-agent/src/agent.rs:49-241 | every step keeps guard, lock, stages, tasks and sessions consistent |
| AgentSessions.RunKeepsStructure | crates/sentinel-polkit-agent/src/agent.rs:49-241 | so does every interleaving |
| AgentSessions.OneLiveSession | crates/sentinel-polkit-agent/src/agent.rs:73 | at most one session task is alive and its caller holds `inflight` |
| AgentSessions.OneSessionEntry | crates/sentinel-polkit-agent/src/agent.rs:181-220 | `sessions` has at most one entry, the guard holder's own |
| AgentSessions.CancelFindsTheSession | crates/sentinel-polkit-agent/src/agent.rs:190-241 | with the lock free, a live task not told to abort is in `sessions`, and a cancel naming it aborts it |
| AgentSessions.NoDeadlock | crates/sentinel-polkit-agent/src/agent.rs:184-190 | in every reachable state with a call that has not returned, some call can take a step of its own |
| AgentSessions.StepsAdvance | crates/sentinel-polkit-agent/src/agent.rs:49-241 | every step brings its own call nearer the end by a rank, and none sets another call back |
| AgentSessions.OwnStepsAreFew | crates/sentinel-polkit-agent/src/agent.rs:49-227 | in every run a call and its session take at most fifteen steps |
| AgentSessions.TaskEventsMoveOnlyTheTask | crates/sentinel-polkit-agent/src/session.rs:34-273 | a step of `session::run` moves only its own task among calls, guard, lock and sessions |
| AgentHistory.DequeueKeepsQueue | crates/sentinel-polkit-agent/src/bypass_service.rs:37-51 | a take keeps queue, origins and history in step |
| AgentHistory.AnswersAreRecorded | crates/sentinel-polkit-agent/src/bypass_service.rs:37-51 | in every reachable state a take is noted in the history exactly when it answers true, and the queue steps alike |
| AgentHistory.NextKeepsQueue | crates/sentinel-polkit-agent/src/session.rs:43-273 | every step keeps every queued approval and every true take traced to its push |
| AgentHistory.NextKeepsEvidence | crates/sentinel-polkit-agent/src/session.rs:43-273 | every step keeps the evidence for every push, task and cache entry, and unsees nothing |
| AgentHistory.RunKeepsHistory | crates/sentinel-polkit-agent/src/session.rs:43-273 | so does every interleaving |
| AgentHistory.TakesAnswerPushes | crates/sentinel-polkit-agent/src/bypass_service.rs:37-51 | true `TakeApproval` replies map injectively and in order to earlier pushes less than a second old, with their action ids |
| AgentHistory.EveryPushWasAllowed | crates/sentinel-polkit-agent/src/session.rs:43-254 | each push's session saw policy Allow, its dialog's ALLOW, or a fresh hit traced to a recorded ALLOW REMEMBER; none under policy Deny, none twice |
| AgentHistory.AskedOnlyWhenOpen | crates/sentinel-polkit-agent/src/session.rs:43-250 | a session whose dialog is up, failed or answered had policy Ask and no cache hit; recording takes its ALLOW REMEMBER and a window |
| AgentHistory.DeniedSessionsNeverPush | crates/sentinel-polkit-agent/src/session.rs:43-243 | sessions ended by policy, user, timeout or a failed dialog never push |
| AgentDecisions.ScriptIsThePlan | crates/sentinel-polkit-agent/src/session.rs:34-273 | which steps a session takes, from its lists, program, action, command line, window and answers alone: the code's branches give exactly the plan |
| AgentDecisions.AboutWhatItWasSpawnedWith | crates/sentinel-polkit-agent/src/agent.rs:115-209 | in every run a session has the configuration, program and command line it was spawned with, to its end |
| AgentDecisions.DeniedNeverPushes | crates/sentinel-polkit-agent/src/session.rs:43-71 | in every run a session whose program or action a deny entry names never pushes; its first step ends it, and else it can only be aborted |
| AgentDecisions.DeniedProgramNeverPushes | crates/sentinel-polkit-agent/src/session.rs:43-71 | nor does one whose forwarded program has a denied file name, under any directory |
| AgentDecisions.ListedPushesAreListed | crates/sentinel-polkit-agent/src/session.rs:72-108 | each push on the lists' word has an allow entry that names its program or action and no deny entry that does |
| AgentDecisions.OtherPushesAreUnlisted | crates/sentinel-polkit-agent/src/session.rs:109-254 | each other push is of a request that no entry names |
| AgentDecisions.LookupHitsExactlyWhen | crates/sentinel-polkit-agent/src/session.rs:131-136 | in every reachable state the cache spares the dialog if and only if some session recorded this action and key command and that grant still holds |
| AgentDecisions.SameKeyMeans | crates/sentinel-polkit-agent/src/session.rs:117-129 | commands with one key start with the same word, and under two full-command scopes are the same text but for outer whitespace |
| AgentDecisions.CacheHitsAreSound | crates/sentinel-polkit-agent/src/session.rs:117-162 | a hit and its grant have one action, eligible commands of one key in that sense, and are less than the window and 900 s apart |
| AgentLeftovers.RunKeepsLeftovers | crates/sentinel-polkit-agent/src/session.rs:88-271 | in every interleaving a queued approval's session is at a phase, or left by an exit, that may leave one |
| AgentLeftovers.WhoseApprovals | crates/sentinel-polkit-agent/src/session.rs:88-271 | every queued approval is the guard holder's or that of a session that left by a failed hand-off, SUCCESS, or an abort after a push that followed the cancel's drain |
| AgentLeftovers.LeftoversExpire | crates/sentinel-polkit-agent/src/approval_queue.rs:24-63 | in every reachable state and whatever else is queued, an approval whose second is over is dropped by the next take unanswered, with all before it |
| AgentLeftovers.OwnStep | crates/sentinel-polkit-agent/src/approval_queue.rs:65-80 | a step takes the queue away from the guard holder if and only if it is a return with something queued |
| AgentLeftovers.OwnIsTheComment | crates/sentinel-polkit-agent/src/approval_queue.rs:73-76 | that all of the queue is the guard holder's is the same as: at most one approval, and it is the guard holder's |
| AgentLeftovers.CommentHoldsExactlyWhen | crates/sentinel-polkit-agent/src/approval_queue.rs:73-76 | for every run: the comment is true in each of its states if and only if every `begin_authentication` returns with the queue empty |
| AgentLeftovers.CommentHoldsExactlyWhenSettled | crates/sentinel-polkit-agent/src/approval_queue.rs:65-80 | for every run, by its events alone: the comment is true throughout if and only if between every push and every later return there is a take or a drain |
| AgentLeftovers.ExitLeavesExactlyWhen | crates/sentinel-polkit-agent/src/session.rs:88-271 | a session that ends leaves its approval behind if and only if it is queued then and the end is a hand-off error, SUCCESS or an abort |
| AgentLeftovers.MovesAreARun | crates/sentinel-polkit-agent/src/agent.rs:229-241 | a disciplined run is a run of the protocol |
| AgentLeftovers.DisciplinedReturnsFindNothing | crates/sentinel-polkit-agent/src/session.rs:254-271 | a disciplined run returns only with an empty queue |
| AgentLeftovers.AtMostOneApproval | crates/sentinel-polkit-agent/src/approval_queue.rs:65-80 | if hand-offs never error, SUCCESS follows a take and a cancel is one step, the comment is true in every state |
| AgentLeftovers.FailedHandoffMispairs | crates/sentinel-polkit-agent/src/session.rs:256-261 | a hand-off error lets an approval meet the next session |
| AgentLeftovers.UntakenSuccessMispairs | crates/sentinel-polkit-agent/src/session.rs:256-271 | so does a SUCCESS without a take |
| AgentLeftovers.SplitCancelMispairs | crates/sentinel-polkit-agent/src/agent.rs:229-241 | so does a push between a cancel's drain and its abort |
| Agent.Agent.constructor | crates/sentinel-polkit-agent/src/agent.rs:33-41 | a new agent has the empty run |
| AgentScript.OthersLeaveTask | crates/sentinel-polkit-agent/src/session.rs:34-273 | whatever the others do, a session that does not move keeps its state, unless it is told to abort |
| AgentScript.OthersLeaveCall | crates/sentinel-polkit-agent/src/agent.rs:49-227 | whatever the others do, a call that does not move keeps its action, cookie and place, and its task is not forgotten |
| AgentScript.OthersLeaveCancel | crates/sentinel-polkit-agent/src/agent.rs:229-241 | whatever the others do, a cancel between its drain and its abort keeps its cookie |
| Agent.Agent.Authenticate | crates/sentinel-polkit-agent/src/agent.rs:49-227 | with everybody else free to move at each await, a call plays exactly its script from arrival to return, leaving the guard free and no entry of its cookie, or the part up to a wait for the guard or its task; it never waits for the sessions lock |
| Agent.Agent.Cancel | crates/sentinel-polkit-agent/src/agent.rs:229-241 | a cancel plays its drain, then, with everybody free to move in between, its abort, and leaves no entry of the cookie; it stays half done only at a taken sessions lock |
| Agent.Agent.RunSession | crates/sentinel-polkit-agent/src/session.rs:34-273 | with everybody else free to move at each await, a session plays exactly the plan for its inputs, or the part before its abort, and returns true exactly if it was granted and helper-1 said SUCCESS, an error exactly if dialog or helper-1 could not be run |
| Agent.Agent.LookThenAsk | crates/sentinel-polkit-agent/src/session.rs:131-250 | the cache is asked once; a hit goes to the hand-off, a miss to the dialog |
| Agent.Agent.AskUser | crates/sentinel-polkit-agent/src/session.rs:164-254 | the dialog, the recording exactly on an opted-in ALLOW with a window, the hand-off exactly on ALLOW |
| Agent.Agent.HandOff | crates/sentinel-polkit-agent/src/session.rs:254-272 | push, hand-off, and a drain exactly on FAILURE |
| Agent.Agent.DropAborted | crates/sentinel-polkit-agent/src/agent.rs:229-241 | an aborted task ends |
| Agent.Agent.TakeApproval | crates/sentinel-polkit-agent/src/bypass_service.rs:37-51 | the answer is true exactly when a live approval was queued, which is consumed; it is then less than a second old and its session had been allowed |
| PamStack.BeforeAnchor | packaging-kde/install.sh:200 | the first auth line that includes or substacks |
| PamStack.IncludesAreAnchors | packaging-kde/install.sh:200 | every auth line whose control is `include` or `substack` is an anchor |
| PamStack.AnchorsAreAuthLines | packaging-kde/install.sh:200 | every anchor is an auth line that holds one of the two words |
| PamStack.HeaderExactlyWhen | packaging-kde/install.sh:211 | a header line is the header between blanks, and nothing else |
| PamStack.ContainsExactlyWhen | packaging-kde/uninstall.sh:165-179 | the patterns match somewhere in the line |
| PamStack.InsertBeforeAnchor | packaging-kde/install.sh:197-207 | the loop with its flag inserts one line before the first anchor, or none |
| PamStack.WireLines | packaging-kde/install.sh:197-213 | loop and fallback compute the specified stack, None when `grep -v` fails |
| PamStack.WiringFailsExactlyWhen | packaging-kde/install.sh:208-213 | the rewrite fails if and only if the stack has nothing but header lines |
| PamStack.WiringIsReversible | packaging-kde/uninstall.sh:165-179 | with an anchor and no Sentinel, exactly one line goes before the first anchor, a second wiring changes nothing, the strip returns the original lines |
| PamStack.FallbackReversibleExactlyWhen | packaging-kde/install.sh:208-213 | without an anchor the strip restores the file if and only if it began with one plain header and had no other |
| PamStack.WiringMeans | docs/src/pam-wiring.md:94-109 | the exact outcome of the wired stack for every base stack, place and result |
| PamStack.FallsThrough | docs/src/pam-wiring.md:94-109 | on PAM_AUTH_ERR and PAM_IGNORE the stack comes out exactly as the base |
| PamStack.SuccessSuffices | docs/src/pam-wiring.md:94-109 | on PAM_SUCCESS with nothing failed or finished before, the stack succeeds |
| PamStack.WiredFileMeans | packaging-kde/install.sh:190-207 | the wired text denotes the base's items with Sentinel's sufficient module at its line, and comes out accordingly |
| PamStack.FallbackFileMeans | packaging-kde/install.sh:208-213 | without an anchor Sentinel decides first and the base decides as before otherwise |
| PamStack.KeptMeansTheSame | packaging-kde/install.sh:211-212 | dropping header lines does not change a stack's meaning |
| Installer.InstallAllAt | packaging-kde/install.sh:120-132 | what any run of installs makes of a destination and its backup; a backup is never overwritten |
| Installer.InstalledIsThere | packaging-kde/install.sh:131 | after a run every destination holds, contents and mode, what was last installed there |
| Installer.ReplayAt | packaging-kde/install.sh:103-118 | what the replay leaves at a destination and its backup, whatever the destination holds by then |
| Installer.ReplayGives | packaging-kde/uninstall.sh:60-92 | what the replay leaves at every path of the disk |
| Installer.ReplayRestoresExactlyWhen | packaging-kde/uninstall.sh:60-92 | the replay restores the original disk if and only if no destination had a backup before, or it did not exist and is installed once |
| Installer.UndoStaysOnTheWay | packaging-kde/install.sh:231-243 | undoing any entry of the log, in any order, stays on the way back to the original disk |
| Installer.ReplayFromOnTheWay | packaging-kde/install.sh:231-243 | after a replay cut off anywhere, the whole log replayed once more gives the original disk |
| Installer.CutRollsBack | packaging-kde/install.sh:103-132 | a failure after the log line, the destination whole, partial or missing, is rolled back under the same condition |
| Installer.CopyLeftBehind | packaging-kde/install.sh:124-127 | a failure between the copy aside and its log line leaves exactly that copy |
| Installer.StaleCopyWins | packaging-kde/install.sh:126 | such a copy is later put over what the destination held |
| Installer.RevertGivesOriginal | packaging-kde/install.sh:231-250 | reverting a tracked install gives the original disk |
| Installer.AfterKeepsTracked | packaging-kde/install.sh:231-250 | every install, failed install, uninstall, cut-off revert and change of what is installed keeps the disk on the way back from its state file |
| Installer.HistoriesAreUndone | packaging-kde/uninstall.sh:60-107 | after any history, reverts and uninstalls cut off midway included, an uninstall gives the original disk, so any number of reinstalls and an uninstall is the identity |
| Installer.ErrorExitRestoresExactlyWhen | packaging-kde/install.sh:413-444 | leaving through `error` restores the disk only if nothing had been installed |
| Installer.ErrorExitLeftovers | packaging-kde/install.sh:413-444 | a later install and uninstall restore what had existed and keep the first run's other files |
| Installer.FallbackAfterLoss | packaging-kde/uninstall.sh:122-179 | without a state file, exactly when a destination goes back to what it was; a PAM stack that had not existed stays, stripped |
| Installer.ShadowBecomesVendorStack | packaging-kde/uninstall.sh:159-179 | a PAM shadow wired from a vendor stack ends as a copy of it |
| Installer.FindBase | packaging-kde/install.sh:137-143 | the first candidate that exists, with none before it; none only if none exists |
| Installer.WiredFromTheFirst | packaging-kde/install.sh:190-216 | the service is wired from the first of its stacks that exists: without the line the target holds just its lines, with mode 0644, its old file is kept aside and no other path moves |
| Installer.WiredAlready | packaging-kde/install.sh:191-199 | a service that has the line, or no stack at all, is left as it is |
| Installer.WiringIsIdempotent | packaging-kde/install.sh:190-216 | wiring a service twice changes nothing on disk and logs nothing |
| Installer.Scripts.InstallFile | packaging-kde/install.sh:120-132 | copy aside, log, write |
| Installer.Scripts.LogInstall | packaging-kde/install.sh:121-130 | the copy is never over an earlier one; both logs get the entry |
| Installer.Scripts.Replay | packaging-kde/uninstall.sh:63-92 | the backwards loop undoes the log |
| Installer.Scripts.Rollback | packaging-kde/install.sh:103-117 | the files of the run are undone and its logs dropped |
| Installer.Scripts.RevertPreviousInstall | packaging-kde/install.sh:231-250 | a recorded install is undone and forgotten |
| Installer.Scripts.RevertCutOff | packaging-kde/install.sh:231-243 | a revert cut off after some entries has undone these and keeps the state file |
| Installer.Scripts.InstallRun | packaging-kde/install.sh:250-491 | a whole run, with its commit and activation entries, is the model's install |
| Installer.Scripts.FailingRun | packaging-kde/install.sh:103-132 | a run with a failing write is the model's rolled-back install |
| Installer.Scripts.ErrorRun | packaging-kde/install.sh:413-444 | a run that ends in `error` leaves files and no state file |
| Installer.Scripts.WirePamService | packaging-kde/install.sh:190-216 | base search, already-wired check, rewrite and install do what the specification says; both logs get the same entries |
| Installer.Scripts.UninstallRun | packaging-kde/uninstall.sh:60-179 | with a state file the replay, without one the fallback loops |

## Left out

- D-Bus marshalling and name ownership, peer credentials, fork, exec and setuid, syslog, sound, Qt, notifications: environment results.
- postcard and TOML: an abstract codec with `decode(encode(m)) == m`, and a parsed configuration value.
- `/proc` readers, display detection, locale, logind: their results are inputs.
- `identity::pick`, `for_service`, UI strings, render modes, `clip`, `format_message`, argument parsing: easy members.
- helper-1's line protocol: reduced to SUCCESS, FAILURE or an error.
- systemd units, sudoers drop-in discovery, release scripts, file ownership, directories, symbolic links and paths that hold a tab or a line break.
- PamStack.WiringMeans: an included or substacked stack may be anything, but a base line of its own with a bracketed control is not spoken of; module types are matched in lower case, and backslash line continuations are not joined.
- Countdown.EveryRun: the progress bar is a real number, and the seconds shown are computed with integers where the source rounds a float up; in the proved range the two agree on the values shown.
- VerdictWire.VerdictSurvivesThePipe: one read returns all that was written, up to the buffer, as for a pipe write this short.
- BrokerWorld.RememberedMeansOptedIn: peers that connect as root are PAM modules following the model; service names hold no NUL, as C strings cannot.
- AgentHistory.EveryPushWasAllowed: an aborted task runs no further step, as on the single-threaded runtime (`crates/sentinel-polkit-agent/src/main.rs:63`); the fairness of the mutexes is not modelled, only that they exclude.
- Agent.Agent.RunSession: what the others do at an await is whatever `Await` may do under its contract; its own body does nothing. So too in Authenticate and Cancel.
- Agent.Agent.Authenticate: a wait that does not end is the outcome `StillWaiting`; one turn at each await stands for any number of wake-ups.
- AgentSessions.CancelFindsTheSession: action ids hold no NUL, as D-Bus strings cannot.
- Installer.HistoriesAreUndone: changes to an installed path are arbitrary between runs; a destination that somebody removes while a run is under way is not covered, nor is a change to a path that a cut-off revert has put back already, nor a rollback that is itself cut off.
