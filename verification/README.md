# The upgradeable BPF loader and its uploader

A Dafny model of the program loader in `scripts/ref`, of the deployment script that drives it, and of two
smaller pieces of the repository: the `simple_token` ledger and the Fireblocks polling loop. Verify it with
`dafny verify dfyconfig.toml`.

## What is modelled

The loader is a state machine over a shared store of accounts. An account has lamports, an owner, an
executable flag and bytes; the first bytes spell an `UpgradeableLoaderState`, and a payload follows at offset
37 (Buffer) or 45 (ProgramData). Six instructions move accounts through Uninitialized, Buffer, Program and
ProgramData, copy payloads between accounts, move lamports and fill an executor cache.

| file | content |
|---|---|
| `Bytes.dfy`, `LoaderState.dfy`, `Instructions.dfy` | words, headers and instructions on the wire, and their round trips |
| `Runtime.dfy` | accounts, the store, and the contracts of the runtime around the loader |
| `Loader.dfy` | each instruction in closed form: a guard that gives the first error, and the final store |
| `Processor.dfy` | the loader as written: a class whose methods change the accounts step by step, each proved to have the outcome of `Loader.dfy`, error by error |
| `Chain.dfy` | runs: loader calls that commit or are undone, interleaved with anything else the chain may do |
| `Transitions.dfy`, `Invariant.dfy` | everything a committed call can do to one account, and what holds in every reachable store |
| `Lifecycle.dfy` | closed, frozen and finalised programs; authorities; headers and payloads |
| `Caching.dfy` | the executor cache, with and without; upgrades forget |
| `Effects.dfy`, `Refusals.dfy` | exactly when each instruction commits and what it leaves, account by account; what each error means |
| `Conservation.dfy`, `Sums.dfy` | lamports, and the two orders of draining a deployed buffer |
| `Builders.dfy` | the SDK's instruction builders against the processor |
| `Uploader.dfy`, `EndToEnd.dfy` | the script's sizes, chunk loop and encoders, when its calls take effect, and what they achieve on chain |
| `SeparateCreation.dfy` | what becomes of finalise when another party reaches the script's Program account first |
| `Ledger.dfy`, `Polling.dfy` | `simple_token` and `waitForSignature` |

## How the parts meet

A state machine needs decisions the source leaves to code it calls. They are these.

* **Steps.** A run is a sequence of loader calls, outside changes and cache evictions. A call's effects on
  accounts and cache are kept only if the processor returns Ok and the runtime's owner rule accepts them
  (`Chain.Commits`); otherwise the state is the one before. Deploy changes accounts before calls that can still
  fail, so this matters.
* **Aliasing.** Two slots may name one account; accounts are looked up by key, so slots that alias see each
  other's changes. While an account is mutably borrowed, reading it again fails: this is the contract taken for
  `KeyedAccount`, whose code is not part of this model, and it decides the aliases payer/buffer, spill/buffer,
  spill/programdata and close/recipient. The live borrow is the field `borrowed` of `Processor.InvokeContext`.
* **System program.** `Runtime.CreateAccount` states the contract of create_account.
* **Environment.** `Runtime.Env` holds what the loader calls: loader and sysvar keys, `find_program_address`
  (partial, as it panics when no bump seed works; taken to be injective, never its own argument and never a loader),
  the rent minimum (positive), the compiler verdict `load`, and the codec of the non-upgradeable loader's two
  instructions. `Runtime.ValidEnvExists` and `Lifecycle.StartExists` show that the assumptions can be met.
* **Everyone else.** `Runtime.OutsideAllows` bounds what other programs may do between loader calls: only an
  owner changes or debits an account, nobody else signs for a derived address, accounts given to a loader are
  zero-filled and not executable, and only accounts without lamports are purged.
* **Arithmetic.** Amounts are u64. `checked_add_lamports` fails on overflow; the plain sum in Upgrade wraps and
  its subtraction saturates. The conservation lemmas show that neither happens when all lamports together fit u64.

## Where code and documentation differ

* The instruction's documentation calls the authority of InitializeBuffer optional and says an omitted one makes
  the buffer immutable (`scripts/ref/loader_upgradable_instruction.rs:21-22`). The code fails without it, so every
  buffer has an authority: `Lifecycle.ImmutableBufferUnreachable`.
* The documentation of SetAuthority says omitting the new authority makes a buffer immutable
  (`scripts/ref/loader_upgradable_instruction.rs:111-113`). The code refuses it for buffers.
* The script sizes its buffer for 33 bytes of metadata (`scripts/deployment/deploy.ts:204`); the header takes 37.
  Four residues of the program's length therefore fail: `Uploader.BufferSizeExact`, with 991 bytes as an example.
* `close_any` lets the authority be omitted together with a program given
  (`scripts/ref/bpf_loader_upgradable.rs:341-358`). The program then takes the authority's slot, and closing a
  ProgramData account or a Buffer fails. `Builders.CloseAnyProgramData`, `CloseAnyBuffer` and
  `CloseAnyUninitialized` give the exact conditions.
* The instruction's documentation says that InitializeBuffer and DeployWithMaxDataLen MUST share a transaction with
  the creation of the account they initialise (`scripts/ref/loader_upgradable_instruction.rs:15-18` and `62-66`).
  The script creates the Program account (`scripts/deployment/deploy.ts:165-190`) and the buffer account
  (`scripts/deployment/deploy.ts:207-231`) in transactions of their own. Neither InitializeBuffer nor the Close of
  an uninitialised account needs a signature, so another party's may come first. The Program account is created
  with 44 bytes (`scripts/deployment/deploy.ts:27`), enough for a buffer header; the SDK's 36 are not:
  `SeparateCreation.ForeignInitializeCommitsExactly`. Finalise then takes effect in no state of any run that
  the other party does not sign (`SeparateCreation.ForeignInitializeBlocks`), and never again once the address holds a
  Program (`SeparateCreation.ProgramNeverRedeployed`). The exact condition is `EndToEnd.FinalizeCommitsExactly`;
  for the buffer account it is `EndToEnd.InitializeCommitsExactly`.
* Agreement of cached and fresh executors needs the runtime's layout, with a non-upgradeable program in the first
  slot of its call. The dispatcher does not refuse a call with the program in the second slot, and
  `Caching.MislaidCallShows` says exactly when such a call shows afterwards. The runtime code that lays calls out is
  not part of this repository; under the layout assumed here it never builds such a call.

## Model

| member | source | states |
|---|---|---|
| Processor.InvokeContext.ProcessInstruction | scripts/ref/bpf_loader/src/lib.rs:199-307 | for every call, store and cache: the result, the final accounts and the final cache are exactly those of the specification the whole-run results are about, and no borrow stays live |
| Processor.InvokeContext.ProcessLoaderUpgradeableInstruction | scripts/ref/bpf_loader/src/lib.rs:309-810 | decodes the instruction, refuses what this processor does not know, and has the chosen arm's outcome |
| Processor.InvokeContext.InitializeBuffer | scripts/ref/bpf_loader/src/lib.rs:320-333 | each error in the source's order, and on success only the first account's header changes |
| Processor.InvokeContext.Write | scripts/ref/bpf_loader/src/lib.rs:334-361 | each error in the source's order, and on success exactly the spliced bytes at 37 + offset |
| Processor.InvokeContext.DeployWithMaxDataLen | scripts/ref/bpf_loader/src/lib.rs:362-512 | the steps with their early or late drain, nested creation, copy and flag change leave the closed-form store and one cache entry, and fail with the specified first error, under any aliasing of the eight slots |
| Processor.InvokeContext.VerifyDeploy | scripts/ref/bpf_loader/src/lib.rs:363-440 | every check before lamports move, in order |
| Processor.InvokeContext.FundAndLoad | scripts/ref/bpf_loader/src/lib.rs:442-480 | pre-drain, nested account creation and loading, and when each of them fails |
| Processor.InvokeContext.RecordPayload | scripts/ref/bpf_loader/src/lib.rs:488-495 | all slices of the header write and the payload copy are in range and of equal length for every input past the checks; the bytes after them are untouched |
| Processor.InvokeContext.RecordProgram | scripts/ref/bpf_loader/src/lib.rs:487-501 | header, payload and zeros of ProgramData, and the executable Program account pointing at it, in range for every input past the checks |
| Processor.InvokeContext.Drain | scripts/ref/bpf_loader/src/lib.rs:446-449 | refused exactly when both keys are one account or the sum overflows; otherwise everything moved |
| Processor.InvokeContext.Upgrade | scripts/ref/bpf_loader/src/lib.rs:513-656 | the steps leave the closed-form store and one cache entry, and fail with the specified first error, under any aliasing of the seven slots; the balances are those of `Effects.UpgradeLeaves` |
| Processor.InvokeContext.VerifyUpgrade | scripts/ref/bpf_loader/src/lib.rs:514-614 | every check before the new program is loaded, in order |
| Processor.InvokeContext.RecordUpgrade | scripts/ref/bpf_loader/src/lib.rs:625-642 | header, copied payload and zero fill together are the whole ProgramData, length unchanged |
| Processor.InvokeContext.FundAndSpill | scripts/ref/bpf_loader/src/lib.rs:644-653 | refused exactly when spill is one of the other two accounts or overflows; otherwise the three balances |
| Processor.InvokeContext.SetAuthority | scripts/ref/bpf_loader/src/lib.rs:657-716 | each error in the source's order, and on success only the header of the first account changes, to the third slot's key or to none (`Effects.SetAuthorityCommitsExactly`) |
| Processor.InvokeContext.Close | scripts/ref/bpf_loader/src/lib.rs:717-807 | each error in the source's order, and on success all lamports moved to the second slot and the state Uninitialized (`Effects.CloseCommitsExactly`) |
| Processor.InvokeContext.CloseProgramData | scripts/ref/bpf_loader/src/lib.rs:753-801 | the linked Program account's checks, then authority and drain, then the closed store |
| Processor.InvokeContext.CommonCloseAccount | scripts/ref/bpf_loader/src/lib.rs:812-838 | authority errors, then the drain's, then the closed store |
| Processor.InvokeContext.WriteProgramData | scripts/ref/bpf_loader/src/lib.rs:114-136 | fails exactly when the bytes do not fit, otherwise writes them and nothing else |
| Processor.InvokeContext.ProcessLoaderInstruction | scripts/ref/bpf_loader/src/lib.rs:840-889 | the non-upgradeable loader's Write and Finalize: errors, final store (`Effects.LegacyWriteCommitsExactly`, `Effects.FinalizeCommitsExactly`), cache entry |
| Processor.InvokeContext.Invoke | scripts/ref/bpf_loader/src/lib.rs:225-285 | the invocation checks, and the executor from the cache or a fresh one that is then cached |
| Processor.DeployComposes | scripts/ref/bpf_loader/src/lib.rs:442-509 | drain, create, record and flag in either order of the drain add up to one simultaneous change of four accounts |
| Processor.CreatedAccounts | scripts/ref/bpf_loader/src/lib.rs:453-470 | after a successful creation payer, ProgramData, Program and buffer are four accounts, and creation spared Program and the buffer's bytes |
| Processor.UpgradeComposes | scripts/ref/bpf_loader/src/lib.rs:616-653 | recording first and funding afterwards has the guard and the store of the closed form, self-borrow refusals included |
| Processor.BufferIsNotProgramData | scripts/ref/bpf_loader/src/lib.rs:558-614 | Upgrade's state checks rule out buffer and ProgramData being one account |
| Processor.UninitializedRewrite | scripts/ref/bpf_loader/src/lib.rs:727-731 | closing an uninitialised account without writing its state equals writing it |
| Loader.DeployFunds | scripts/ref/bpf_loader/src/lib.rs:362-509 | a Deploy that passes works on four different accounts, from an unused ProgramData address, with payer and buffer covering the cost |
| Transitions.CommittedMoves | scripts/ref/bpf_loader/src/lib.rs:309-889 | for every committed call and every account: the complete list of what can have happened to it, with the signatures each entry requires |
| Transitions.ImageReads | scripts/ref/bpf_loader/src/lib.rs:488-495 | the recorded ProgramData decodes to its header, and its payload is the buffer's payload and then zeros |
| Transitions.DeployResult | scripts/ref/bpf_loader/src/lib.rs:442-509 | Deploy's final store account by account; no fifth account changes |
| Transitions.UpgradeAccounts | scripts/ref/bpf_loader/src/lib.rs:553-646 | ProgramData, buffer and spill of an Upgrade that passes are three accounts, ProgramData and buffer with the same signing authority |
| Transitions.DeployCommitsExactly | scripts/ref/bpf_loader/src/lib.rs:362-512 | a Deploy takes effect if and only if it reaches the processor, its checks pass, and the loader owns Program and buffer (or the buffer is empty of lamports) |
| Transitions.InitializeBufferCommitsExactly | scripts/ref/bpf_loader/src/lib.rs:320-333 | an InitializeBuffer takes effect if and only if it reaches the processor and its account is the loader's, uninitialised and holds 37 bytes; no signature plays a part |
| Transitions.WriteCommitsExactly | scripts/ref/bpf_loader/src/lib.rs:334-361 | on an account of the loader a Write takes effect if and only if it reaches the processor and its checks pass |
| Transitions.UpgradeChecked | scripts/ref/bpf_loader/src/lib.rs:514-614 | all of Upgrade's checks pass if and only if the slots hold the sysvars, a writable executable Program pointing at the first slot, a Buffer and a ProgramData of the same signing authority, in sizes that fit and with the lamports to fund it |
| Transitions.UpgradeMoves | scripts/ref/bpf_loader/src/lib.rs:513-656 | Upgrade changes ProgramData and drains the buffer only with the recorded authority's signature, and can only credit anyone else |
| Transitions.CloseMoves | scripts/ref/bpf_loader/src/lib.rs:717-838 | Close changes the closed account only, which was uninitialised or whose authority signed; everyone else is at most credited |
| Transitions.LegacyMoves | scripts/ref/bpf_loader/src/lib.rs:840-889 | the non-upgradeable loader changes only its first, signing account, never its length, owner or lamports, and never clears the flag |
| Effects.InitializeBufferLeaves | scripts/ref/bpf_loader/src/lib.rs:320-333 | a committed InitializeBuffer replaces its account's header by a Buffer of the second slot's key and changes nothing else anywhere |
| Effects.WriteLeaves | scripts/ref/bpf_loader/src/lib.rs:334-361 | a committed Write puts its bytes at 37 + offset, byte by byte, and changes nothing else anywhere |
| Effects.DeployLeaves | scripts/ref/bpf_loader/src/lib.rs:362-512 | a committed Deploy: the payer's balance less the rent minimum plus the buffer's, the new ProgramData with slot, authority, payload and zeros, the executable Program pointing at it, the emptied buffer, and no fifth account changed |
| Effects.UpgradeLeaves | scripts/ref/bpf_loader/src/lib.rs:625-653 | a committed Upgrade, all lamports fitting u64: ProgramData holds exactly max(1, rent minimum), the buffer nothing, spill its own plus all the rest; header, payload and zeros; no fourth account changed |
| Effects.SetAuthorityCommitsExactly | scripts/ref/bpf_loader/src/lib.rs:657-716 | SetAuthority takes effect if and only if the present authority signs, a Buffer gets a successor, and the account is the loader's or nothing changes; it then records the third slot's key (or none), keeps the slot number and every byte behind the header, and changes no other account |
| Effects.CloseCommitsExactly | scripts/ref/bpf_loader/src/lib.rs:717-838 | the exact condition under which a Close takes effect, for all three states; it then adds every lamport to the second slot's account, empties the first and resets its tag, and changes no other account |
| Effects.LegacyWriteCommitsExactly | scripts/ref/bpf_loader/src/lib.rs:857-868 | the non-upgradeable Write takes effect if and only if its account is the loader's, signs, and the bytes fit; it then puts them at its offset and changes nothing else |
| Effects.FinalizeCommitsExactly | scripts/ref/bpf_loader/src/lib.rs:869-885 | Finalize takes effect if and only if its account is the loader's, signs, and its bytes compile; it then sets the executable flag and changes nothing else |
| Effects.FinalizedProgramRuns | scripts/ref/bpf_loader/src/lib.rs:264-285 | after a committed Finalize of a funded account, over every later run, bytes, owner and flag stay, and a laid-out call runs what those bytes compiled to |
| Refusals.InitializeBufferRefusals | scripts/ref/bpf_loader/src/lib.rs:320-333 | the exact condition for each error of InitializeBuffer |
| Refusals.WriteRefusals | scripts/ref/bpf_loader/src/lib.rs:334-361 | the exact condition for each error of Write |
| Refusals.SetAuthorityRefusals | scripts/ref/bpf_loader/src/lib.rs:657-716 | the exact condition for each error of SetAuthority, by the state of the account |
| Refusals.CloseRefusals | scripts/ref/bpf_loader/src/lib.rs:717-830 | for each state of the account, which of Close's errors means what |
| Refusals.LegacyRefusals | scripts/ref/bpf_loader/src/lib.rs:846-875 | the errors of the non-upgradeable loader's instructions |
| Refusals.DispatchRefusals | scripts/ref/bpf_loader/src/lib.rs:209-223 | the dispatcher's errors before any instruction is read |
| Refusals.InvocationRefusals | scripts/ref/bpf_loader/src/lib.rs:231-257 | the errors of a call of an executable account: wrong loader, wrong ProgramData, closed program |
| Invariant.InvRun | scripts/ref/bpf_loader/src/lib.rs:309-838 | linkage, rent exemption, buffer authorities and derived-address ownership are kept by every run |
| Invariant.ProgramStays | scripts/ref/bpf_loader/src/lib.rs:380-388 | no step of any kind changes a Program account's bytes, owner or flag or takes lamports from it |
| Invariant.BecomesProgram | scripts/ref/bpf_loader/src/lib.rs:497-501 | the only way into Program state is a Deploy on an uninitialised account |
| Invariant.BecomesProgramData | scripts/ref/bpf_loader/src/lib.rs:435-440 | the only way into ProgramData state is a Deploy, at the address derived from an uninitialised Program account |
| Invariant.ProgramDataStays | scripts/ref/bpf_loader/src/lib.rs:590-593 | a ProgramData account that stays one keeps its length and its rent exemption |
| Lifecycle.ReachableLinkage | scripts/ref/bpf_loader/src/lib.rs:435-501 | from any state without programs, after any run: Program accounts are executable, rent-exempt and point at their derived address; each ProgramData account is rent-exempt and pointed at by exactly one Program; every Buffer has an authority |
| Lifecycle.NeverPurged | scripts/ref/bpf_loader/src/lib.rs:390-393 | outside loader calls a Program or ProgramData account can only be credited |
| Lifecycle.ImmutableBufferUnreachable | scripts/ref/bpf_loader/src/lib.rs:339-342 | over every run, no answer for a loader-owned buffer is "immutable", unless that very account was a buffer without authority at the start |
| Lifecycle.ProgramForever | scripts/ref/bpf_loader/src/lib.rs:380-388 | Program state is never left: over every run a Program account can only be credited |
| Lifecycle.ClosedForever | scripts/ref/bpf_loader/src/lib.rs:238-261 | after a committed Close of its ProgramData, no later run makes any call of the program run code, whatever the cache holds |
| Lifecycle.CloseCloses | scripts/ref/bpf_loader/src/lib.rs:753-804 | a committed Close of a ProgramData account leaves its Program without ProgramData |
| Lifecycle.ClosedNotInvocable | scripts/ref/bpf_loader/src/lib.rs:244-261 | no call of a closed program gets past the dispatcher |
| Lifecycle.FrozenForever | scripts/ref/bpf_loader/src/lib.rs:594-602 | without an upgrade authority, over every run: both accounts keep every byte and never lose a lamport |
| Lifecycle.FrozenAlive | scripts/ref/bpf_loader/src/lib.rs:225-285 | a frozen program still passes every check after any run, and what is loaded is the payload it was frozen with |
| Lifecycle.LiveProgramPasses | scripts/ref/bpf_loader/src/lib.rs:225-285 | a call laid out by the runtime for a live program is decided by the cache or by loading its payload, never refused |
| Lifecycle.OmittedAuthorityFreezes | scripts/ref/bpf_loader/src/lib.rs:688-708 | a committed SetAuthority with two slots freezes the program that points at the account |
| Lifecycle.FinalizedForever | scripts/ref/bpf_loader/src/lib.rs:211-225 | a funded, finalised non-upgradeable program keeps bytes, owner and flag over every run |
| Lifecycle.FinalizedForeverExactly | scripts/ref/bpf_loader/src/lib.rs:865-881 | Finalize asks for no rent: a finalised program is immutable over every run if and only if its account holds lamports |
| Lifecycle.LegacyTargetNotExecutable | scripts/ref/bpf_loader/src/lib.rs:286-306 | the dispatcher never hands the non-upgradeable loader's instructions an executable first account |
| Lifecycle.NoChangeWithoutAuthority | scripts/ref/bpf_loader/src/lib.rs:338-354 | in every step a Buffer or ProgramData account changes or loses lamports only in a call its recorded authority signed (or is purged between calls when it holds none) |
| Lifecycle.UntouchedWithoutAuthority | scripts/ref/bpf_loader/src/lib.rs:819-830 | over every run in which its authority signs nothing, a funded Buffer or ProgramData account keeps every byte and lamport |
| Lifecycle.WriteKeepsHeader | scripts/ref/bpf_loader/src/lib.rs:355-360 | Write at any u32 offset keeps bytes 0..37 and the length, and puts its bytes where they belong |
| Lifecycle.SetAuthorityKeepsPayload | scripts/ref/bpf_loader/src/lib.rs:684-707 | every authority change keeps all bytes past 37 or 45, also when the header written is the shorter one |
| Caching.FreshCacheNeverShows | scripts/ref/bpf_loader/src/lib.rs:264-279 | from a chain without programs and with an empty cache: every run gives the same replies and the same accounts as a run that always loads afresh |
| Caching.CacheNeverShows | scripts/ref/bpf_loader/src/lib.rs:264-279 | the same from any state whose cache is sound |
| Caching.CacheTransparent | scripts/ref/bpf_loader/src/lib.rs:264-279 | one call: same reply, same accounts, with the cache and without |
| Caching.CacheRun | scripts/ref/bpf_loader/src/lib.rs:472-501 | over every run each entry was loaded from its program's bytes, at most without trailing zeros |
| Caching.CommittedExecutors | scripts/ref/bpf_loader/src/lib.rs:616-623 | a committed call changes the cache by one sound entry, for the program it is about, or not at all |
| Caching.OtherProgramKept | scripts/ref/bpf_loader/src/lib.rs:616-653 | a call about another program leaves a live program live from before, with the same payload |
| Caching.InvokeEntry | scripts/ref/bpf_loader/src/lib.rs:264-278 | what a miss caches is sound: the padded ProgramData payload, or the whole non-upgradeable account |
| Caching.MislaidCallCaches | scripts/ref/bpf_loader/src/lib.rs:208-273 | with a finalised program in the second slot, a miss compiles the first slot's bytes and caches them for the program |
| Caching.MislaidCallShows | scripts/ref/bpf_loader/src/lib.rs:264-279 | after such a call, the next laid-out call is answered as without the cache if and only if the first slot's bytes did not compile or give the program's own code |
| Caching.LiveRun | scripts/ref/bpf_loader/src/lib.rs:238-261 | a live program stays live, with its bytes, over every run without an Upgrade of it or a Close of its ProgramData |
| Caching.LiveProgramRuns | scripts/ref/bpf_loader/src/lib.rs:264-285 | a laid-out call of a live program runs the code its bytes compile to, whatever a sound cache holds |
| Caching.DeployedBytes | scripts/ref/bpf_loader/src/lib.rs:488-501 | a committed Deploy leaves a live program whose bytes are the buffer's payload and zeros to the maximum length |
| Caching.UpgradeImage | scripts/ref/bpf_loader/src/lib.rs:631-642 | after Upgrade the payload is the buffer's payload and zeros to the unchanged length |
| Caching.PayloadIsLastImage | scripts/ref/bpf_loader/src/lib.rs:625-642 | after any run a live program's payload is the last deployed or upgraded buffer's payload and zeros, independent of all earlier ones |
| Conservation.LamportsConserved | scripts/ref/bpf_loader/src/lib.rs:309-838 | every committed loader call keeps the sum of lamports over the whole store, nested creation included |
| Conservation.UpgradeConserves | scripts/ref/bpf_loader/src/lib.rs:644-653 | Upgrade's wrapping sum and saturating subtraction lose nothing when all lamports fit u64 |
| Conservation.EarlyDrainRefinesLate | scripts/ref/bpf_loader/src/lib.rs:442-509 | draining first succeeds whenever draining last does, with the same store, and in addition exactly when the payer alone falls short and payer plus buffer suffice |
| Conservation.LateDeploySucceeds | scripts/ref/bpf_loader/src/lib.rs:453-509 | the exact condition under which Deploy passes with the late drain |
| Conservation.EarlyDeploySucceeds | scripts/ref/bpf_loader/src/lib.rs:442-480 | the exact condition under which Deploy passes with the early drain |
| LoaderState.HeaderRoundTrip | scripts/ref/bpf_loader_upgradable.rs:31-57 | a serialised state followed by any bytes decodes to that state |
| LoaderState.HeaderSizes | scripts/ref/bpf_loader_upgradable.rs:58-77 | the sizes 4, 37, 36 and 45 are the lengths of the serialised states, 32 less without an authority |
| LoaderState.WireForm | scripts/ref/bpf_loader_upgradable.rs:31-57 | the serialised states byte by byte: variant number in four bytes, option flags 0 and 1, numbers and keys low byte first |
| LoaderState.DecodedFits | scripts/ref/bpf_loader_upgradable.rs:31-57 | a state can be read only from data that starts with its whole serialised form |
| LoaderState.HeaderDecides | scripts/ref/bpf_loader_upgradable.rs:31-57 | data agreeing on the header bytes decodes to the same state |
| LoaderState.SetStateReads | scripts/ref/bpf_loader/src/lib.rs:488-499 | a state set is the state read, and no byte past the header moves |
| LoaderState.ZeroDataIsUninitialized | scripts/ref/bpf_loader_upgradable.rs:34-35 | zero-filled data of at least four bytes reads as Uninitialized |
| Instructions.InstructionRoundTrip | scripts/ref/loader_upgradable_instruction.rs:8-164 | all eight variants are read back from their wire form, whatever follows |
| Instructions.SerializeInjective | scripts/ref/loader_upgradable_instruction.rs:8-164 | no instruction's wire form is a prefix of another's |
| Instructions.RecognisersExact | scripts/ref/bpf_loader_upgradable.rs:236-250 | each `is_*_instruction` holds of an encoding exactly for its own variant |
| Instructions.EncodeWriteInstruction | scripts/deployment/deploy.ts:49-68 | the script's bytes are the serialised Write for every u32 offset and byte string, and an error past u32 |
| Instructions.EncodeDeployWithMaxDataLenInstruction | scripts/deployment/deploy.ts:70-80 | the script's bytes are the serialised DeployWithMaxDataLen for every u64 length |
| Instructions.ScriptInitializeBuffer | scripts/deployment/deploy.ts:253 | the four zero bytes are InitializeBuffer and decode to it |
| Instructions.ProcessorReads | scripts/ref/bpf_loader/src/lib.rs:319 | the processor reads the six variants it knows and refuses the other two, whatever bytes follow |
| Builders.BuiltIsRead | scripts/ref/bpf_loader_upgradable.rs:131-384 | the processor reads from a built instruction the one it was built from |
| Builders.BuiltWritePasses | scripts/ref/bpf_loader_upgradable.rs:160-174 | a built write to a buffer of the same authority is refused only when its bytes overrun the account |
| Builders.BuiltDeployCommitsExactly | scripts/ref/bpf_loader_upgradable.rs:179-211 | the built Deploy takes effect if and only if payer, Program account, buffer and derived address are in the stated condition, the buffer's program compiles, and payer (with the buffer, if drained first) covers the cost |
| Builders.BuiltDeployRefusals | scripts/ref/bpf_loader/src/lib.rs:380-433 | each error the built Deploy can get before lamports move, and when |
| Builders.BuiltUpgradePasses | scripts/ref/bpf_loader_upgradable.rs:213-234 | upgrading a live program with the built list fails exactly for size, funds, code or spill, never for its accounts or signatures |
| Builders.BuiltFreezeIsForever | scripts/ref/bpf_loader_upgradable.rs:288-303 | set_upgrade_authority without a new authority, once committed, freezes the program over every later run |
| Builders.OnlyAuthorityActs | scripts/ref/bpf_loader/src/lib.rs:594-712 | Upgrade, Close and SetAuthority of a ProgramData account take effect only with the recorded authority signing in its slot |
| Builders.BuiltHandOver | scripts/ref/bpf_loader_upgradable.rs:288-303 | set_upgrade_authority with a successor, once committed: from then on only the successor can upgrade, close or hand on, and until it signs no run changes a byte |
| Builders.CloseAnyProgramData | scripts/ref/bpf_loader_upgradable.rs:341-358 | close_any on a ProgramData account passes if and only if the recorded authority and the program pointing there are both given, to a recipient that is another account and can hold the lamports |
| Builders.CloseAnyBuffer | scripts/ref/bpf_loader_upgradable.rs:341-358 | on a Buffer it passes if and only if the recorded authority is given, with or without a program, to such a recipient |
| Builders.CloseAnyUninitialized | scripts/ref/bpf_loader_upgradable.rs:341-358 | on an uninitialised account it passes if and only if the recipient is such a one, whatever else is given |
| Builders.CloseAnyNeedsAuthority | scripts/ref/bpf_loader_upgradable.rs:341-358 | without an authority the error on a ProgramData account is that accounts are missing, with or without a program |
| Uploader.BufferSizeExact | scripts/deployment/deploy.ts:204 | no chunk overruns the script's buffer if and only if (n + 33) mod 1024 is none of 0, 1021, 1022, 1023 |
| Uploader.BufferSizeTooSmall | scripts/deployment/deploy.ts:204 | 991 bytes is a program length the script cannot upload |
| Uploader.BuilderSizeFits | scripts/ref/bpf_loader_upgradable.rs:80-82 | the SDK's own buffer length always fits |
| Uploader.FinalizeLengthFits | scripts/deployment/deploy.ts:540 | with the buffer size as maximum length, Deploy never answers that the maximum is too small |
| Uploader.CalculateOptimalChunkSize | scripts/deployment/deploy.ts:305-331 | chunks of 600 bytes, and the least number of them that covers the program |
| Uploader.SendChunk | scripts/deployment/deploy.ts:385-474 | one send and up to three retries, stopping at the first success and giving up only after all four |
| Uploader.WriteChunks | scripts/deployment/deploy.ts:341-475 | every attempt carries its chunk's exact bytes, in order; the loop ends with every chunk reported, or after four failures of one chunk (or an offset past u32) |
| Uploader.DeployProgram | scripts/deployment/deploy.ts:341-553 | finalise is sent only if every chunk had an attempt reported successful, and with the right bytes |
| EndToEnd.UploadDeploys | scripts/deployment/deploy.ts:341-553 | for every program whose buffer fits: initialise, submit every chunk in any order with any repeats amid anything others do, and finalise takes effect if and only if the store is ready for it, leaving ProgramData with the program and zeros to the maximum length |
| EndToEnd.InitializeCommitsExactly | scripts/deployment/deploy.ts:233-255 | the script's InitializeBuffer takes effect if and only if its account is the loader's, still uninitialised and large enough |
| EndToEnd.ChunkCommitsExactly | scripts/ref/bpf_loader/src/lib.rs:334-361 | a chunk's transaction takes effect if and only if the chunk ends inside the buffer |
| EndToEnd.LastChunkCommitsExactly | scripts/deployment/deploy.ts:204 | the last chunk's takes effect if and only if (n + 33) mod 1024 is none of 0, 1021, 1022, 1023 |
| EndToEnd.SubmittedIsCommitted | scripts/deployment/deploy.ts:357 | in a buffer that fits, over every run, the chunks that take effect are the chunks submitted |
| EndToEnd.UploadCompletesExactly | scripts/deployment/deploy.ts:204-475 | an upload is complete if and only if every chunk was submitted, in whatever order, and the buffer fits |
| EndToEnd.FinalizeCommitsExactly | scripts/deployment/deploy.ts:495-542 | finalise on a filled buffer takes effect if and only if the Program account is still uninitialised and funded, the derived address unused, the payer able to pay, the size permitted and the program compiles |
| EndToEnd.FinalizedRuns | scripts/ref/bpf_loader/src/lib.rs:225-285 | after finalise, over every later run without Upgrade or Close, a laid-out call is answered by the code the program compiles to, whatever the cache holds |
| EndToEnd.UploadedProgramRuns | scripts/deployment/deploy.ts:341-553 | the same from the script's first transaction to any later call of the program |
| EndToEnd.ScriptUploadDeploys | scripts/deployment/deploy.ts:495-553 | the same for the attempts the script made, given that each send reported successful is in the run |
| EndToEnd.RunFills | scripts/deployment/deploy.ts:357 | over every run the buffer holds exactly the chunks committed so far and zeros elsewhere, unless a byte's chunk is still missing |
| EndToEnd.ChunkWriteFills | scripts/ref/bpf_loader/src/lib.rs:355-360 | writing a chunk settles its bytes and disturbs no others, in whatever order and however often |
| EndToEnd.ScriptChunkIsChunk | scripts/deployment/deploy.ts:358-376 | the bytes the script sends for a chunk are read by the processor as that chunk's write |
| EndToEnd.InitializeFills | scripts/deployment/deploy.ts:233-255 | InitializeBuffer leaves an empty buffer that the payer controls |
| EndToEnd.FinalizeDeploys | scripts/deployment/deploy.ts:495-542 | a committed finalise on a filled buffer deploys the program |
| EndToEnd.BadResidueNeverLands | scripts/ref/bpf_loader/src/lib.rs:125-133 | with a bad residue the last chunk's transaction takes effect in no state at all |
| SeparateCreation.FinalizeNeedsUninitialized | scripts/ref/bpf_loader/src/lib.rs:380-393 | finalise takes effect only on an uninitialised, rent-exempt Program account |
| SeparateCreation.ProgramNeverRedeployed | scripts/ref/bpf_loader/src/lib.rs:380-383 | once the address holds a Program, finalise takes effect in no later state of any run |
| SeparateCreation.ForeignInitializeCommitsExactly | scripts/deployment/deploy.ts:27 | an unsigned InitializeBuffer by another party on the freshly created Program account takes effect if and only if the account has 37 bytes: with the script's 44, but not with the SDK's 36 |
| SeparateCreation.ForeignInitializeBlocks | scripts/deployment/deploy.ts:165-190 | after it, finalise takes effect in no later state of any run which that party does not sign |
| SeparateCreation.ForeignCloseBlocks | scripts/ref/bpf_loader/src/lib.rs:727-731 | an unsigned Close of the created account takes effect for any other recipient that can hold the lamports, and the next finalise is refused |
| Ledger.TokenProgram.Execute | programs/simple-token/src/lib.rs:9-30 | each instruction in place goes through exactly when it should and moves every balance by its gain less its loss; a failed one changes nothing |
| Ledger.ApplyExact | programs/simple-token/src/lib.rs:9-30 | each instruction goes through if and only if its accounts exist and the amount fits, and then each balance moves by its gain less its loss |
| Ledger.TransferExact | programs/simple-token/src/lib.rs:25-30 | a transfer takes from the sender, gives to the receiver, and changes no third balance |
| Ledger.FailuresExact | programs/simple-token/src/lib.rs:9-30 | what each failure means |
| Ledger.BalanceHistory | programs/simple-token/src/lib.rs:14-30 | over any run with distinct transfer accounts each balance is the initial one plus minted and received, minus burned and sent |
| Ledger.SupplyBooks | programs/simple-token/src/lib.rs:14-30 | over any run with distinct transfer accounts the sum of balances is the initial one plus minted minus burned |
| Polling.WaitForSignature | scripts/fireblocks/lib/helpers.ts:28-62 | returns or throws only at an answer that entitles it to, and keeps waiting only while none does |
| Polling.VerdictExact | scripts/fireblocks/lib/helpers.ts:28-62 | it returns if and only if a final status comes before any failed status, before the fourth polling error and not after a failed first request; it throws if and only if one of those comes first |

## Left out

- `create_executor` internals, `create_vm`, `BpfExecutor::execute`, JIT, ELF loading, verifier and syscalls: foreign code; only the verdict on a byte string and the cache around it are kept, without the compute budget it may depend on.
- What a program does while it runs: any change it makes through its own accounts is an outside step.
- Parameter serialisation, logging, timing and compute-meter reporting: no effect on the account store.
- `find_program_address`, signatures and rent arithmetic: functions of the environment and flags of the call.
- `KeyedAccount`, the native invoke, the owner rule and undoing failed instructions: the runtime's code is not part of this model; their contracts are stated above.
- `limited_deserialize`: its bound on the size of the data read is not modelled.
- The codec of `LoaderInstruction` (the non-upgradeable loader's): not part of this model; an arbitrary partial function stands for it.
- Objects: the accounts are values in one map field looked up by key, so references to an account object held across instructions are not modelled.
- Rent collection from accounts that are not rent-exempt: between loader calls `Runtime.OutsideAllows` lets nothing but their purge take from the loader's accounts.
- Write enforcement on read-only accounts: only the checks the loader makes itself are modelled.
- ExtendProgram and SetAuthorityChecked: no processor for them is in the repository; only their encoding is modelled.
- Deploy's and Upgrade's slots for `first_instruction_account`: slots are numbered from the first instruction account on.
- set_buffer_authority, the checked builders, extend_program, create_buffer and the account-creating half of deploy_with_max_program_len: lists of accounts like those modelled, without a case of their own.
- Blockhashes, fees, sleeps, the Fireblocks connection and confirmation polling: a send is reduced to what it reported and whether it landed.
- scripts/deployment/deploy_old.ts, the stake, mint, balance and decode scripts, and migrations: thin scripts over libraries.
- Ledger.BalanceHistory: as for SupplyBooks, transfers from an account to itself are excluded.
- Ledger.SupplyBooks: transfers from an account to itself are excluded, because Anchor's write-back decides them and its code is not part of this model.
- Lifecycle.FinalizedForever: asks for lamports in the finalised account, because Finalize checks no rent and an account without lamports may be purged; Lifecycle.FinalizedForeverExactly shows that this is the exact condition.
- Lifecycle.NeverPurged: speaks of steps between loader calls; inside a call Close is the way a ProgramData account ends.
