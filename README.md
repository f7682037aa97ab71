# iSPD on ROSS: reversible workload generators and the star layout

This project models two parts of the iSPD simulator that runs on the ROSS
optimistic (Time Warp) kernel, and proves properties of them in Dafny 4.11.

1. **Reversible workload generators** (`ispd::workload`). A workload counts
   the tasks it still has to generate. For each task it writes a processing
   size and a communication size. The Constant policy writes two fixed
   constants. The Uniform policy takes two draws from the logical process's
   reversible random stream and scales them into the configured ranges. A
   rollback calls `reverseGenerateWorkload`, which must restore the counter
   and rewind the stream by exactly the draws the forward call took. The
   model proves that forward then reverse is the identity on
   (counter, stream position). It also proves that a rollback of `k`
   generations restores the earlier state, and that a replay yields the
   same sizes.
2. **Logical-process layout of the star model** (`main`). The master sits at
   id 0, the links at the odd ids and the machines at the even ids up to
   `2 * machineAmount`. The model covers the slave list, the link and
   machine registration loops, the `mapping` function, `nlp_per_pe`, and
   the sequential and distributed loops that give each slot a type and
   count the dummies. The model proves that every slot on every node gets
   the type of the global id it holds. On node 0, `current_gid` lags the
   slot index by one; the model keeps that, and proves the lag never
   changes a type. It also proves that all nodes together host each of the
   `nlp` logical processes once and create `nnodes * nlp_per_pe - nlp`
   dummies.

Files: `unsigned.dfy` has the wrap-around arithmetic of `unsigned` and
`tw_lpid`. `rng.dfy` has the reversible random stream. `workload.dfy` has
the workloads. `layout.dfy` has the layout and the registration loops.

The random stream is modelled abstractly. It is a fixed function from an
integer position to a draw in [0, 1]. `Unif` returns the draw at the
position and advances it; `ReverseUnif` steps it back. The class hierarchy
`Workload` / `ConstantWorkload` / `UniformWorkload` becomes one class.
Its immutable `policy` field is a tagged union of the two variants, and the
methods dispatch on it. A constructor abort (`ispd_error`) becomes an
`Err` result of the factories `NewConstant` and `NewUniform`.

`src/main.cpp:91-94` calls a six-argument `constant(...)` factory (owner name,
tasks, sizes, a factor and an interarrival distribution). The
`include/ispd/workload/workload.hpp` in this model has only the three-argument
factory. The model follows `workload.hpp`.

## Model

| member | source | states |
|---|---|---|
| `Unsigned.Dec32` | include/ispd/workload/workload.hpp:158 | `m_RemainingTasks--` on the unsigned 32-bit counter (also line 264): one less, and 2^32 - 1 when it was 0 |
| `Unsigned.Inc32` | include/ispd/workload/workload.hpp:172 | `m_RemainingTasks++` on the unsigned 32-bit counter (also line 296): one more, and 0 when it was 2^32 - 1 |
| `Unsigned.Add64` | src/main.cpp:97 | `link_id += 2` on a 64-bit `tw_lpid`: the plain sum, or the sum minus 2^64 when it overflows |
| `Unsigned.IncDecInverse` | include/ispd/workload/workload.hpp:23 | on the unsigned 32-bit counter, `++` undoes `--` and `--` undoes `++` for every value, wrap-around included |
| `Rng.Stream.Unif` | include/ispd/workload/workload.hpp:259 | `tw_rand_unif` returns the draw at the current position, a value in [0, 1], and advances the position by one |
| `Rng.Stream.ReverseUnif` | include/ispd/workload/workload.hpp:293-294 | `tw_rand_reverse_unif` steps the position back by exactly one |
| `Workloads.Validate` | include/ispd/workload/workload.hpp:119-238 | a policy passes the constructor checks exactly when all its sizes or bounds are positive; the reported error carries the offending, non-positive value; for each check, when every earlier check passes and it fails, its own error is the one reported (processing size, then communication size; min and max processing, then min and max communication); max >= min is not checked |
| `Workloads.NewConstant` | include/ispd/workload/workload.hpp:119-136 | fails exactly when the constant processing size or the constant communication size is <= 0, with the error of the first failing check; otherwise a fresh workload storing the task count and both constants |
| `Workloads.NewUniform` | include/ispd/workload/workload.hpp:209-238 | fails exactly when one of the four bounds is <= 0, with the error of the first failing check; otherwise a fresh workload storing the task count and the four bounds unchanged |
| `Workloads.Workload.constructor` | include/ispd/workload/workload.hpp:33-34 | stores the remaining-task count and the policy as given |
| `Workloads.Workload.GetRemainingTasks` | include/ispd/workload/workload.hpp:74 | returns the current counter and changes nothing |
| `Workloads.Workload.Generate` | include/ispd/workload/workload.hpp:153-270 | the sizes are the policy's sizes at the stream position before the call. Constant writes its two constants and leaves the stream alone. Uniform takes the processing draw first and the communication draw second, and each size lies between its bounds. A validated workload's sizes are positive. The counter is decremented, and goes down by exactly one when it was positive |
| `Workloads.Workload.ReverseGenerate` | include/ispd/workload/workload.hpp:284-300 | increments the counter and rewinds the stream by the draws one generation takes: two for Uniform, none for Constant (lines 171-173) |
| `Workloads.ReverseUndoesGenerate` | include/ispd/workload/workload.hpp:272-296 | reverse after generate restores the counter and the stream position exactly, for both policies and every counter value |
| `Workloads.GenerateRedoesReverse` | include/ispd/workload/workload.hpp:153-173 | generate after reverse is the identity too, so generate and reverse are mutual inverses on the generator state |
| `Workloads.RollbackRestores` | include/ispd/workload/workload.hpp:53-64 | rolling back `k` generations with `k` reversals, latest first, restores the state before the first of them |
| `Workloads.GenerateStepsEffect` | include/ispd/workload/workload.hpp:16-23 | while tasks remain, `k` generations lower the counter by exactly `k` and advance the stream by `k` times the draws per generation |
| `Workloads.UniformSizesInRange` | include/ispd/workload/workload.hpp:258-261 | with draws in [0, 1], each uniform size lies between its two bounds, so in [min, max] when min <= max |
| `Workloads.ValidatedSizesPositive` | include/ispd/workload/workload.hpp:111-118 | every size a policy that passed the constructor checks generates is positive |
| `Workloads.GenerateRollbackReplay` | include/ispd/workload/workload.hpp:272-296 | generate, reverse, generate: after the reverse the replay reads the same stream positions, so it returns exactly the first call's sizes and leaves the state one generation on |
| `Layout.HighestMachineId` | src/main.cpp:77 | `highest_machine_id` is even, is the last entry of the slave list, and no slave id exceeds it |
| `Layout.LpCount` | src/main.cpp:112 | `nlp` counts the master, the `m` registered links and the `m` machines; it is odd and one past `highest_machine_id` |
| `Layout.HighestLinkId` | src/main.cpp:77-78 | `highest_link_id` is `2 * machineAmount - 1` for 1 up to 2^31 - 1 machines. When the 32-bit product `machineAmount * 2` is 0 (0 machines, or 2^31) the `tw_lpid` subtraction wraps to 2^64 - 1. Above 2^31 it is the wrapped `2 * machineAmount - 2^32 - 1` |
| `Layout.Mapping` | src/main.cpp:21 | `mapping` gives the node whose range of `lpsPerPe` ids contains `gid` (integer division) |
| `Layout.LpsPerPe` | src/main.cpp:126 | `nlp_per_pe` is the ceiling of `nlp / nnodes`: enough slots for all `nlp` processes, one fewer per node would not be, and never more than `nlp` |
| `Layout.SequentialLayout` | src/main.cpp:182-196 | `nlp = 2m + 1` slots; slot 0 is the master, odd slots links, even slots machines; every slot is set and none is a dummy |
| `Layout.DistributedLayout` | src/main.cpp:114-180 | `nlp_per_pe` slots on node `k`, each the type of its global id `k * nlp_per_pe + i`; `dummy_count` equals the number of dummy slots; `current_gid` ends one past the node's last id, or at `nlp_per_pe - 1` on node 0 |
| `Layout.NodeZeroSlots` | src/main.cpp:139-158 | node 0 as written: slot 0 master; for `i >= 1` the dummy test reads `current_gid == i - 1` and the link/machine choice reads the parity of `i`; `dummy_count` is the number of dummies |
| `Layout.OtherNodeSlots` | src/main.cpp:159-176 | node `k > 0`: slot `i` is a dummy iff its global id exceeds `highest_machine_id`, else a link for an odd id and a machine for an even one; `current_gid` rises by one per slot; `dummy_count` is the number of dummies |
| `Layout.LayoutLps` | src/main.cpp:114-197 | on one node or many, every slot gets the type of the global id it holds, and the dummy count is the number of dummy slots (zero in the sequential branch) |
| `Layout.NodeLayoutMatchesGids` | src/main.cpp:134-157 | the node-0 lag of `current_gid` never changes a type: on every node, slot `i` gets the intended type of global id `k * nlp_per_pe + i` |
| `Layout.NodeDummyCount` | src/main.cpp:161-167 | node `k` creates `nlp_per_pe` minus the number of real processes it hosts dummies, and node 0 creates none |
| `Layout.AllNodesTogether` | src/main.cpp:120-125 | all nodes together host all `nlp` logical processes, and create `nnodes * nlp_per_pe - nlp` dummies |
| `Layout.MappingLocatesGid` | src/main.cpp:21 | for every global id below `nlp`, `mapping` names one of the nodes, and the slot there that holds the id is typed for it |
| `Layout.CollectMachineIds` | src/main.cpp:84-87 | the slave-list loop (and the identical registerMachine loop at lines 101-104) collects the ids 2, 4, ..., 2m in order |
| `Layout.CollectLinks` | src/main.cpp:97-98 | registers link `2j + 1` from the master (0) to `2j + 2` for each `j < m` |
| `Layout.SlaveIdsShape` | src/main.cpp:84-87 | the slave list has `m` entries, strictly ascending, and is exactly the set of even ids from 2 to `highest_machine_id` |
| `Layout.LinksJoinMasterToMachines` | src/main.cpp:97-98 | every link leaves the master, and its destination is `link_id + 1`, a registered machine |
| `Layout.RegistrationMatchesLayout` | src/main.cpp:96-104 | for ids 1 to `highest_machine_id`, an id gets the machine type iff it is a slave id, and the link type iff it is a registered link id |
| `Layout.LinkGuardAgrees` | src/main.cpp:97 | with at least one machine, the source's guard `link_id <= highest_link_id` on odd ids equals `link_id < highest_machine_id`, and `link_id += 2` does not wrap while the guard holds |
| `Layout.WrappedLinkGuardNeverFails` | src/main.cpp:77-97 | with 0 or 2^31 machines every odd id passes the source's guard, and `link_id += 2` gives another odd id, so the link loop never exits |

## Left out

- The ROSS kernel calls (`tw_init`, `tw_define_lps`, `tw_run`, `tw_end`, `tw_opt_add`) are foreign calls. `tw_lp_settype` is modelled only as writing a type tag into a per-node slot array. The lookahead setting at lines 74-75 has no effect on the layout and is left out.
- `ispd::routing_table::load` (src/main.cpp:67) is file I/O into code that is not part of this model.
- `ispd::this_model::registerUser`, `registerMaster`, `registerLink`, `registerMachine` and `getUsers` are builder calls whose bodies are not part of this model. The registrations are modelled as the lists of ids they receive. The builder's other arguments (bandwidths, power figures, scheduler, interarrival distribution) are not modelled. Neither is the "no user registered" abort at lines 108-109, which cannot fire right after `registerUser`.
- The internals of `tw_rand_unif` and `tw_rand_reverse_unif` are a foreign generator. They are replaced by an abstract stream of draws in [0, 1].
- `ispd_debug`, `ispd_info` and `ispd_error` print to a log. `ispd_error` in a constructor becomes an `Err` result of the factory.
- Floating point is modelled as `real`, so rounding in the uniform sizes is not modelled. The reals have no NaN and no infinities. A NaN or +inf size or bound passes the source's `x <= 0.0` checks (workload.hpp lines 124, 129, 215, 220, 225 and 230). A NaN bound then gives a NaN size, and an infinite range with a draw of 0 gives a NaN or infinite size.
- Workloads.Validate, Workloads.NewConstant, Workloads.NewUniform, Workloads.ValidatedSizesPositive and Workloads.UniformSizesInRange: their "fails exactly when some value is <= 0" and "sizes are positive and in range" hold only for finite, non-NaN doubles. `ceil((double)nlp / tw_nnodes())` is modelled as integer ceiling division. For `nlp` below 2^32 the double division is exact enough that the two agree.
- Layout.SequentialLayout, Layout.DistributedLayout, Layout.LayoutLps, Layout.CollectMachineIds, Layout.CollectLinks and Layout.LinkGuardAgrees: these require `machineAmount <= 2^31 - 1`. Above that, `g_star_machine_amount * 2 + 1` wraps in 32-bit `unsigned`, and the model does not cover the wrapped layout. Layout.HighestLinkId does model the wrapped product for every 32-bit machine amount. At 2^31 the product is 0 and the link loop never ends, as with 0 machines (Layout.WrappedLinkGuardNeverFails). At 2^31 + 1 the product is 2, which gives a one-machine star. Layout.HighestMachineId and Layout.LpCount are the unwrapped values.
- Layout.CollectLinks: models the link loop with the guard `link_id < highest_machine_id` rather than `link_id <= highest_link_id`. The two agree for one machine or more (Layout.LinkGuardAgrees). For 0 machines (and 2^31) the source's loop never terminates (see Findings).
- Layout.NodeZeroSlots, Layout.OtherNodeSlots: the `g_tw_mynode * nlp_per_pe` product is taken as exact, without `tw_lpid` wrap-around. It stays below `nlp + nnodes`.
- The `Switch` entry of `lps_type` is never assigned by the layout, so it appears only as a tag.
- `include/ispd/metrics/metrics.hpp` and `include/ispd/metrics/machine_metrics.hpp` hold only declarations and a passive record. `include/ispd/message/message.hpp` is a flat record with no logic. None of them is modelled.
- The master, link, machine, switch and dummy services, the scheduler and the interarrival generator are referenced by `src/main.cpp`, but their sources are not part of this model.

## Findings

| source | as written | input that shows it | evidently intended | confidence | as-written member | corrected member |
|---|---|---|---|---|---|---|
| src/main.cpp:77-78, 97 | `highest_link_id = highest_machine_id - 1` is computed on the unsigned `tw_lpid`. The link loop runs while `link_id <= highest_link_id`, stepping by 2 | `--machine-amount=0`, or `--machine-amount=2147483648` (2^31, where the 32-bit `g_star_machine_amount * 2` wraps to 0): `highest_link_id` wraps to 2^64 - 1. Every odd id passes the guard, and `link_id += 2` wraps from 2^64 - 1 back to 1, so registration never ends | no link is registered when there is no machine | medium, not executed (assumes `tw_lpid` is a 64-bit unsigned type, as in ROSS) | `Layout.WrappedLinkGuardNeverFails` | `Layout.CollectLinks` |
