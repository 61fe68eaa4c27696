# A verified model of a delegated proof-of-stake chain node

This project models, in Dafny 4.11, the parts of the node in which many functions together keep an
invariant, and proves those invariants for every input, every run or every reachable state. Every
`.dfy` file belongs to it; `dafny verify dfyconfig.toml` checks the whole.

| part | files |
|---|---|
| proxies, stake, witness votes | `ProxyForest`, `VoteTallies`, `Voting` |
| witness scheduling in virtual time | `VirtualTime`, `Selection`, `Voting` |
| fork database, fork choice, irreversible blocks in the log | `Blocks`, `ForkDatabase`, `ForkLog`, `ForkChoice`, `ForkRuns`, `Irreversibility` |
| block synchronisation | `Synopsis`, `Sync`, `SyncQueue` |
| block log, wire framing, production slots | `BlockLog`, `Framing`, `Slots` |
| limit orders and the internal market | `Orders`, `Market` |
| curation, payouts, reward curves | `RewardCurves`, `Curation` |
| delegation and power-down | `Delegation` |
| supplies over all holdings, payouts of comments into them | `Ledger`, `Cashouts` |
| votes, ledger, market and delegations as one node | `Node` |
| sums, shares, floor division, shared types | `Sums`, `Holders`, `Portions`, `Arithmetic`, `Common` |

Objects the node updates in place are classes whose methods carry the source's loops and branches. Each
such method is proved against functions and predicates on values, and what those mean is proved in lemmas
beside them. A `Run` (or `PushBlocks`, `CastAll`, `ApplyBlocks`) at the end of a class says what any
sequence of operations keeps.

## How the program is represented

- All hard forks are taken as applied. The proxy depth, the number of witnesses, the block interval and the
  start of voting are parameters.
- A failed `FC_ASSERT` rolls the operation back, so an operation that answers `false` (or `Refused`) has
  changed nothing.
- Account names are numbers. What the node takes from elsewhere is a parameter: the head time, the median
  price, the power of a vote, whether a block is known, what a block does to the state.
- A block id is the block: its predecessor and its content. Undo sessions are a stack of earlier states.
- What a block does to the state is any function that yields the next state or fails, and any number it makes
  irreversible on the way, up to its own; `Irreversibility` proves that bound for the witnesses'
  confirmations. Committing sessions, writing the log through the fork database and shrinking that database
  are part of applying a block, so a block can fail although its content is sound.
- An item of the fork database points to the item of its predecessor, weakly: the pointer can be followed while
  that item is in the index, is the head, or is held by a switch in progress. A block that is pushed again gets a
  new item, which stays out of the index if the block is known and may still become the head; so a pointer that
  was lost stays lost (`PointerStaysLost`).
- The program stores an account's SCORE once. `Voting`, `Ledger` and `Delegation` each keep the part of an account
  they are about, SCORE included; `Node` joins them and proves that they always hold the same. The market has no
  balances of its own: it works on the ledger.
- Amounts are unbounded integers. Where the width matters it is written out: 128-bit virtual time, the
  64-bit shuffle, 32-bit frame sizes, weights below 2^64, amounts below 2^63 in orders.

## What the proofs found out

- A power-down with a route that keeps stake as stake can be refused although all totals are right: the
  deposit is counted before the withdrawal is. `PowerDown` states exactly when, `DepositCanBeRefused`
  gives a state. (libraries/chain/database.cpp:1388, 1455)
- A scheduling round is refused exactly when fewer witnesses have a key than there are places while some
  witness has none. (libraries/chain/witness_schedule.cpp:183-185)
- The block log is written from the fork database's own head, which is not the chain's. While a switch tries the
  new branch that head has been lowered by the length of the old branch. So writing fails exactly when a
  number that is needed lies above it and has a rival there, or has been forgotten (`WriteFails`,
  `WriteFailsAbove`), and a sound branch then counts as bad. (libraries/chain/database.cpp:855, 3114-3117,
  libraries/chain/fork_database.cpp:212-231)
- A fork switch is not always undone. It is lost if the branch point lies below the undo history, if a block
  of the new branch commits past the branch point before one fails, if the fork database has forgotten the
  way back, or if it has forgotten a block that is to be undone, which has to be fetched first.
  `SwitchOutcome` says exactly when. `BadBlockBehindIrreversible` loses the old head in three
  pushes; `SoundBranchLost` loses it in eight without any bad block, because the log cannot be written;
  `BlockForgotten` loses it although pointers and sessions are all there, because the block to undo is gone. While
  a switch is under way `Floor` may lie above blocks not yet irreversible. (libraries/chain/database.cpp:564-610,
  852-853, 3126)
- The log and what cannot be undone only ever grow. The irreversible number of the state can fall, but only in a
  switch, to a branch with fewer confirmations (`PushBlock`, `IrreversibleNumberFalls`).
- After a block on top of the head has failed, the fork database's head stays on it, and the next block
  pushed is applied whatever it is. An older block of the chain that arrives a second time then fails and is
  removed from the fork database; if a rival of it is known, the rival reaches the log (`RivalLogged`).
  `Misplaced` and `Foreign` describe all blocks that can do such harm. A misplaced block always does; a foreign
  one, a first block that arrives when the chain's own first blocks are forgotten, does exactly unless the push
  itself mends it again (`Mended`). Every other push keeps the log the start of the head's chain, through switches
  and the way back as well; a new highest block that does not claim to be the first does no harm. (libraries/chain/database.cpp:617-631, libraries/chain/fork_database.cpp:238-241)
- A block that makes itself irreversible and then fails cannot be undone: `Stuck`. With two or more different
  witnesses scheduled no block makes itself irreversible; with a single one every block does
  (`ThresholdBelowHead`).
- Rebuilding the index of a log with a single block writes nothing; `Open` and `PrefixRecovers` give the
  exact condition for recovery. (libraries/chain/block_log.cpp:299)
- An honest answer fails the requester's check exactly when the matched id is the empty one and the synopsis
  names something but not block 1. Synopses built by the node never contain the empty id.
- The genesis balances satisfy the supply equation if and only if the initial supply divides evenly.
- Paying SCORE out while the fund behind it is empty makes the fund negative as soon as the amount is worth
  anything (`FundCoversPayout`). With a fund, every instalment succeeds and a fund remains (`Withdraw`), and
  every other operation and block step keeps one too, except a claim of SCORE so small that no TME goes with it
  while there is no fund (`Run`). The genesis state has SCORE and no fund until the first block's inflation puts
  TME there (`ProcessFunds`).
- Clearing the null account takes its stake off the total without walking up its proxies. That keeps the totals
  exactly if the account has no proxy and no votes, or no stake, and keeps stake covered exactly if the account has
  lent nothing and powers nothing down, or has no stake (`ClearStake` of each); nobody can sign for the null
  account, so in a run it does. (libraries/chain/database.cpp:1247-1261)
- The test that a new account is lent enough never refuses anything: a fee that is accepted passes it without any
  loan (`AlwaysEnoughLent`). (libraries/chain/node_evaluator.cpp:203-216)
- Routes of a power-down to account 0 are neither counted nor paid: the search for an account's routes starts
  behind them. (libraries/chain/node_evaluator.cpp:1008, libraries/chain/database.cpp:1369, 1396)
- The pass over due power-downs moves on before it stores an account's next time. If nobody is a whole interval
  late, each due account pays once and none is left due. A lone power-down that is later than that stays due
  (`LoneStaysDue`, `LateStaysDue`). (libraries/chain/database.cpp:1346-1348)
- A synopsis for a queue that ends below the first number of the pass would be read past the end of the queue
  (`AddQueued`). (libraries/net/node.cpp:2424-2430)
- Documentation says a power-down takes a fixed number of intervals; the code takes the amount divided by the
  rate, rounded up, with the rate itself rounded down. (libraries/chain/node_evaluator.cpp:937-957)

## Model

| member | source | states |
|---|---|---|
| `ProxyForest.SharesAreAllStake` | libraries/chain/database.cpp:3950-3954 | over any proxy forest and depth, root weights plus the cut-off last slots of proxied accounts sum to exactly all stake |
| `ProxyForest.RootsWeighAtMostAll` | libraries/chain/database.cpp:3939-3940 | the roots that vote for a witness never weigh more than all the stake, so the check on its votes holds |
| `ProxyForest.AttachAcyclic` | libraries/chain/node_evaluator.cpp:1043-1063 | a proxy chain followed to its end without meeting the account can take the new link without becoming a loop |
| `ProxyForest.DetachAbove` | libraries/chain/database.cpp:1106-1135 | what taking an account out of the forest costs each account above it, level by level |
| `ProxyForest.DetachElsewhere` | libraries/chain/database.cpp:1106-1135 | accounts that are not above the one taken out keep their totals at every level |
| `VoteTallies.StakeArrays` | libraries/chain/database.cpp:1137-1158 | walking up with a change of stake leaves every stored slot equal to the stake exactly that many hops below |
| `VoteTallies.DetachArrays` | libraries/chain/database.cpp:1106-1135 | walking up with the negated levels of an account gives the arrays of the forest without its link |
| `VoteTallies.AttachArrays` | libraries/chain/database.cpp:1106-1135 | walking up with the levels of an account gives the arrays of the forest with its link |
| `VoteTallies.StakeTally` | libraries/chain/database.cpp:1137-1169 | a change of stake changes a witness's tally by the change if the root it reaches votes for the witness, and not otherwise |
| `VoteTallies.DetachTally` | libraries/chain/database.cpp:1106-1169 | taking out a link changes every tally by what the walk subtracts at the root it reaches |
| `VoteTallies.TallyBounds` | libraries/chain/database.cpp:1176-1177 | a tally lies between zero and the total stake |
| `Voting.VotingDatabase.AdjustWitnessVote` | libraries/chain/database.cpp:1171-1195 | the exact new record of the witness, refused exactly when its votes would exceed the total SCORE |
| `Voting.VotingDatabase.AdjustWitnessVotes` | libraries/chain/database.cpp:1160-1169 | every witness of the ballot is adjusted by the same amount and no other is touched |
| `Voting.VotingDatabase.AdjustProxiedLevels` | libraries/chain/database.cpp:1106-1135 | the recursive walk raises the slots above by the shifted levels, stops at the depth limit, and credits the root's witnesses with what arrives |
| `Voting.VotingDatabase.AdjustProxiedStake` | libraries/chain/database.cpp:1137-1158 | the same walk for a single amount, refused exactly when some witness would exceed the total |
| `Voting.VotingDatabase.ShiftStake` | libraries/chain/database.cpp:1062-1077 | a change of an account's stake keeps arrays and tallies exact |
| `Voting.VotingDatabase.SetProxy` | libraries/chain/node_evaluator.cpp:1024-1069 | keeps every total; accepted if and only if the proxy is new, not oneself, may be used, and its chain ends within the depth without meeting the account |
| `Voting.VotingDatabase.FollowProxies` | libraries/chain/node_evaluator.cpp:1038-1050 | the loop over the proxy chain decides exactly whether the chain ends in time without meeting the account |
| `Voting.VotingDatabase.WitnessVoteWeight` | libraries/chain/include/node/chain/account_object.hpp:115-119 | an account's weight is its stake and all stake within the depth below it |
| `Voting.VotingDatabase.AccountWitnessVote` | libraries/chain/node_evaluator.cpp:1071-1136 | keeps every total; the exact conditions under which a vote is taken, and the new ballot |
| `Voting.VotingDatabase.DeclineVotingRights` | libraries/chain/database.cpp:2136-2163 | an account that declines is out of the forest and of every tally, and everything else stays exact |
| `Voting.VotingDatabase.CreateAccount` | libraries/chain/node_evaluator.cpp:110-185 | a new account starts with no stake, empty slots and no votes, exactly if there was none of that name, and all totals stay exact |
| `Voting.VotingDatabase.WitnessUpdate` | libraries/chain/node_evaluator.cpp:64-108 | refused unless its owner is an account; a new witness has no votes and the latest scheduled time, an existing one only changes its key |
| `Voting.VotingDatabase.PowerDown` | libraries/chain/database.cpp:1359-1456 | the step as a whole keeps every total; it is refused exactly when some witness would have too many votes before the withdrawal is subtracted |
| `Voting.VotingDatabase.CreditDeposits` | libraries/chain/database.cpp:1368-1393 | deposits of stake one by one, with the exact condition under which the vote check stops them |
| `Voting.DepositCanBeRefused` | libraries/chain/database.cpp:1388-1388 | a concrete state with right totals in which a deposit is refused |
| `Voting.VotingDatabase.ValidateInvariants` | libraries/chain/database.cpp:3939-3954 | in every consistent state the stored shares sum to the total SCORE and no witness has more votes than that |
| `Voting.VotingDatabase.ClearStake` | libraries/chain/database.cpp:1247-1261 | stake taken off an account and off the total without a walk keeps every total if and only if it was nothing, or the account has neither a proxy that counts it nor votes |
| `Voting.VotingDatabase.ClearNull` | libraries/chain/database.cpp:1215-1261 | the null account, for which nobody votes or sets a proxy, loses its stake and all totals stay exact |
| `Voting.VotingDatabase.Run` | libraries/chain/database.cpp:3921-3954 | acyclic proxies, exact arrays, exact tallies, a clock behind every witness: kept over every sequence of operations, clearing the null account included, whatever each answers |
| `VirtualTime.AdjustKeepsOnTime` | libraries/chain/database.cpp:1171-1195 | a vote change never wraps in 128 bits where it must not, records the true progress and leaves the witness's time at or after the clock |
| `VirtualTime.WithinLap` | libraries/chain/database.cpp:1181-1183 | a witness that is on time has never run more than a lap |
| `VirtualTime.RestartOnTime` | libraries/chain/witness_schedule.cpp:163-177 | the overflow test of a round is exact, and a witness restarted at time zero is on time |
| `Selection.SelectVoted` | libraries/chain/witness_schedule.cpp:83-97 | the most voted witnesses with a key, as many as the limit allows, listed by falling votes |
| `Selection.ElectedOnce` | libraries/chain/witness_schedule.cpp:83-97 | there is only one list of elected witnesses: who is elected, and in what order, is determined |
| `Selection.SelectMiners` | libraries/chain/witness_schedule.cpp:101-131 | the queue is worked off from its front until there are enough miners; those looked at leave it, and those with a key that are not elected are the miners, in its order |
| `Selection.SelectRunning` | libraries/chain/witness_schedule.cpp:136-157 | witnesses are looked at by scheduled time until the places are filled; those with a key that are not taken get them in that order, and the new clock is the time of the last one looked at |
| `Selection.RunsOnce` | libraries/chain/include/node/chain/witness_objects.hpp:193-199 | the order in which running witnesses are looked at is total: only the same time and id leave it open |
| `Selection.RestartProcessed` | libraries/chain/witness_schedule.cpp:162-177 | restarts the processed witnesses, or reports the first overflow |
| `Selection.ResetAll` | libraries/chain/witness_schedule.cpp:10-28 | after the reset every witness starts its lap at time zero, with its votes alone deciding its scheduled time |
| `Selection.MoveClock` | libraries/chain/witness_schedule.cpp:159-181 | the processed witnesses restart at the given time and nobody else changes, or if some lap would overflow everyone restarts at zero; either way nobody is passed |
| `Selection.RoundOnTime` | libraries/chain/witness_schedule.cpp:134-181 | after a round without overflow the new clock has passed no witness |
| `Selection.ThreeClasses` | libraries/chain/witness_schedule.cpp:76-158 | the active list is elected, then miners, then timeshare; every witness is marked by the one part it is in, and the others keep their mark |
| `Selection.ChooseActive` | libraries/chain/witness_schedule.cpp:76-158 | the three selections together: elected by votes, miners by the queue, the rest by scheduled time, each exactly as far as there are places |
| `Selection.PlanRound` | libraries/chain/witness_schedule.cpp:76-187 | the whole round: who is active in what order and class, who leaves the queue, who restarts when, and the new clock; refused if and only if places are short of keys while some witness has none |
| `Selection.Shuffle` | libraries/chain/witness_schedule.cpp:278-294 | for every seed exactly the swaps of the generator, which permute the entries and leave the rest untouched |
| `Selection.StoreShuffled` | libraries/chain/witness_schedule.cpp:262-294 | the stored schedule is the shuffle of the active witnesses, with an empty tail |
| `Voting.VotingDatabase.UpdateWitnessSchedule` | libraries/chain/witness_schedule.cpp:76-307 | a round keeps every invariant of the voting state; it is planned as the rules of all three selections say, carried out on witnesses and clock, and stored as the shuffle of the chosen |
| `ForkDatabases.ForkDatabase.PushBlock` | libraries/chain/fork_database.cpp:35-70 | exactly when a block is taken, the index and head after it, and that no pointer that was lost comes back: a known block keeps its old item, a higher one makes its new item the head |
| `ForkDatabases.PointerStaysLost` | libraries/chain/fork_database.cpp:35-70 | after a block is removed and it and its successor are pushed again, all blocks are known and the branch of the successor still cannot be fetched |
| `ForkDatabases.ForkDatabase.PopBlock` | libraries/chain/fork_database.cpp:16-22 | the head moves to the item it points to exactly if that item is still there |
| `ForkDatabases.ForkDatabase.Remove` | libraries/chain/fork_database.cpp:238-241 | the block leaves the index; the head does not move |
| `ForkDatabases.ForkDatabase.SetMaxSize` | libraries/chain/fork_database.cpp:94-110 | exactly the blocks too far below the head are erased |
| `ForkDatabases.ForkDatabase.FetchBranchFrom` | libraries/chain/fork_database.cpp:168-210 | two descending branches of items down to where the chains part; fails only if a pointer above that point cannot be followed |
| `ForkDatabases.BranchPoint` | libraries/chain/fork_database.cpp:168-210 | the common parent is the most recent common ancestor unless one block is an ancestor of the other, and exactly then the last blocks coincide |
| `ForkDatabases.ForkDatabase.WalkMainBranchTo` | libraries/chain/fork_database.cpp:212-221 | the block of that number on the head's branch, or none if a pointer cannot be followed |
| `ForkDatabases.ForkDatabase.FetchOnMainBranch` | libraries/chain/fork_database.cpp:223-231 | the only block of that number, else the one on the head's branch |
| `ForkLogs.WriteFails` | libraries/chain/database.cpp:3112-3121 | writing the log up to a number stops short if and only if some number on the way cannot be fetched |
| `ForkLogs.WriteFailsAbove` | libraries/chain/fork_database.cpp:212-231 | while nothing is forgotten, that is if and only if a needed number lies above the fork head and more than one block has it |
| `ForkLogs.LogRight` | libraries/chain/database.cpp:3112-3121 | a log written from a tracked chain, from wherever the fork head stands, stays the start of that chain |
| `ForkLogs.SwitchLogs` | libraries/chain/database.cpp:564-581 | whatever is logged while a switch tries the new branch is the start of the new branch's chain |
| `ForkLogs.SwitchedLog` | libraries/chain/database.cpp:564-581 | on the new head, or an applied ancestor of it, the log is the start of that chain and the rest of it stays tracked |
| `ForkLogs.RestoredLog` | libraries/chain/database.cpp:584-608 | back on the old head the log is still the start of its chain, and no block of it was removed with the bad ones |
| `ForkLogs.LogConcludes` | libraries/chain/database.cpp:564-610 | wherever a switch ends, on the new head, on an applied ancestor of it or back on the old one, the log is the start of that chain and the rest stays tracked |
| `ForkLogs.ForeignTracked` | libraries/chain/database.cpp:546-562 | a log that a first block threatens is right afterwards if and only if nothing wrong was logged and the block is gone again or nothing is left to log |
| `ForkLogs.ForeignSwitch` | libraries/chain/database.cpp:564-610 | the same through a whole switch, however it ends |
| `ForkChoice.ChainDatabase.Commit` | libraries/chain/database.cpp:3102-3102 | undo sessions up to the irreversible block are dropped and no others |
| `ForkChoice.ChainDatabase.WriteLog` | libraries/chain/database.cpp:3104-3124 | the log grows by fetched blocks exactly as far as they can be fetched through the actual fork head |
| `ForkChoice.ChainDatabase.ApplyBlock` | libraries/chain/database.cpp:2508-2580 | a block is applied in its own session: the next state, or the old one with the commit and the log entries left behind, exactly as the trial of the block says; stopped only if it committed itself |
| `ForkChoice.ChainDatabase.PopOne` | libraries/chain/database.cpp:844-862 | the head block is undone exactly if it can be fetched from index or log and the fork head has a predecessor; otherwise nothing changes |
| `ForkChoice.ChainDatabase.PopTo` | libraries/chain/database.cpp:566-568 | the pop loop ends; it reaches its target if and only if there are enough sessions, the pointers from the fork head lead far enough down, and every block on the way can be fetched from index or log |
| `ForkChoice.ChainDatabase.ApplyBranch` | libraries/chain/database.cpp:570-581 | applies exactly the blocks of a branch up to the first that fails by itself or for the log |
| `ForkChoice.HeadFollows` | libraries/chain/database.cpp:564-568 | before a switch, the pointers down from the fork head lead to the branch point if and only if its own pointer can be followed, and then along the branch in the index |
| `ForkChoice.RestoreDecides` | libraries/chain/database.cpp:584-608 | after a failed block the exact outcome is that of sessions, pointers and blocks that still can be fetched, in terms of the state before the switch |
| `ForkChoice.AttemptReplays` | libraries/chain/database.cpp:599-606 | blocks that applied once apply again and need no new log entry, so the old branch can always be restored from the branch point |
| `ForkChoice.ChainDatabase.Restore` | libraries/chain/database.cpp:584-608 | after a bad block the old head is reached again if and only if sessions and pointers lead back to the branch point and the blocks to undo can be fetched; nothing new reaches the log |
| `ForkChoice.ChainDatabase.SwitchFork` | libraries/chain/database.cpp:564-613 | how a switch ends, as a function of the state before: on the new head, back on the old one, lost, or stuck, and where a lost one leaves chain and log; the log stays the start of the head's chain, and one a foreign block threatens is right exactly if mended |
| `ForkChoice.ChainDatabase.Extend` | libraries/chain/database.cpp:617-631 | a block is applied or removed from the fork database; exactly when the log stays right |
| `ForkChoice.LeadingTrial` | libraries/chain/database.cpp:617-631 | on top of a head from which the index leads down to the log, whatever a sound block makes irreversible can be logged, and the index leads down from it again |
| `ForkChoice.ChainDatabase.Advance` | libraries/chain/database.cpp:556-634 | exact conditions for extending, ignoring, switching, losing and getting stuck; a right log stays right if and only if the block is not misplaced, and one a foreign block threatens if and only if it is mended |
| `ForkChoice.ChainDatabase.HighestIsHarmless` | libraries/chain/database.cpp:546-635 | a block that becomes the highest and does not claim to be the first never spoils the log |
| `ForkChoice.ChainDatabase.PushBlock` | libraries/chain/database.cpp:546-635 | exactly when a block is taken and what then happens, in terms of the state before: applied, removed, stuck, ignored, an error, or the outcome of the switch; a sound block on top of the head extends it if it is the highest and nothing new has to be logged, and always while the fork database follows the chain; the state is the replay of the head's chain; the log and what cannot be undone only grow; the log stays the start of the head's chain exactly unless the block is misplaced, or foreign and not mended |
| `ForkChoice.ChainDatabase.PushBlocks` | libraries/chain/database.cpp:497-635 | new sound blocks, each on top of the last, all become the head in turn, from a new database or wherever the fork database follows the chain; over any sequence of blocks without a lost switch the head never falls and an unchanged height means an unchanged state; the log and what cannot be undone never fall; without a harmful block the log is always the start of the head's chain |
| `ForkRuns.BadBlockBehindIrreversible` | libraries/chain/database.cpp:564-610 | three blocks pushed on a new chain: the switch that the third starts loses the old head, because the second was irreversible at once and the third is bad |
| `ForkRuns.SoundBranchLost` | libraries/chain/database.cpp:564-610 | eight blocks pushed on a new chain, none of them bad: the switch to the longer branch loses the old head because the log cannot be written |
| `ForkRuns.BlockForgotten` | libraries/chain/database.cpp:584-608 | 21 blocks pushed on a new chain: the last switch fails and loses the old head, with nothing irreversible above the branch point and every pointer in place, because the block to undo can no longer be fetched |
| `ForkRuns.IrreversibleNumberFalls` | libraries/chain/database.cpp:564-613 | six blocks pushed on a new chain after which the irreversible number of the state has fallen from 1 to 0 while the log keeps its block |
| `ForkRuns.RivalLogged` | libraries/chain/database.cpp:617-631 | six blocks pushed on a new chain after which the log holds a block that is not on the head's chain |
| `Irreversibility.NthElementRank` | libraries/chain/database.cpp:3084-3090 | the selected entry is the one with at most k smaller entries |
| `Irreversibility.ThresholdIsQuorum` | libraries/chain/database.cpp:3077-3090 | a block is within the threshold if and only if three quarters of the scheduled witnesses have confirmed it |
| `Irreversibility.ThresholdBelowHead` | libraries/chain/database.cpp:3077-3090 | with two or more different witnesses scheduled the quorum stays below the head; with its signer alone it is the head |
| `Irreversibility.Confirmations.LastIrreversible` | libraries/chain/database.cpp:3055-3100 | the new irreversible number: fixed distance before voting starts, afterwards exactly what the quorum has confirmed |
| `Irreversibility.Confirmations.Extend` | libraries/chain/database.cpp:3040-3100 | the number is the fixed distance before voting starts, afterwards it never falls and every rise has its quorum; it never passes the head, and stays below it if two different witnesses are scheduled |
| `Irreversibility.Confirmations.Run` | libraries/chain/database.cpp:3051-3100 | over any run of blocks and schedules the number never falls and never passes the head |
| `Blocks.SwitchKeepsChain` | libraries/chain/database.cpp:564-568 | chains that part at or above block n have the same first n blocks |
| `Synopses.HalveShape` | libraries/app/application.cpp:812-825 | the halving pass rises strictly from the low number to exactly the high one in floor(log2(span)) + 1 entries |
| `Synopses.HalvesJoin` | libraries/net/node.cpp:2414-2429 | the numbers up to the reference point and those after it are one pass |
| `Synopses.GetBlockchainSynopsis` | libraries/app/application.cpp:710-829 | exactly when a synopsis exists, and its ids: those of the reference point's chain at the numbers of the pass |
| `Synopses.ForkSynopsis` | libraries/app/application.cpp:752-796 | the same for a reference point on a fork |
| `Synopses.AddQueued` | libraries/net/node.cpp:2413-2431 | the queued ids at the numbers of a pass over the queue are appended, wherever the queue starts; fails exactly if the pass starts beyond the queue |
| `Synopses.HalvesAreSynopsis` | libraries/net/node.cpp:2413-2431 | for ids that follow the reference point the two halves are a single halving pass over our chain and the queued ids |
| `Synopses.CreateBlockchainSynopsis` | libraries/net/node.cpp:2386-2433 | exactly when there is a synopsis, what its two halves are for any queue, and that they are one halving pass if the queue follows the reference point |
| `Synopses.SynopsisShape` | libraries/net/node.cpp:2386-2433 | rising block numbers, real blocks, ends at the last id, logarithmic length |
| `Sync.GetBlockIds` | libraries/app/application.cpp:571-625 | the answer to a synopsis: ids from the last known one on, the exact number remaining, or which failure |
| `Sync.LastKnownIs` | libraries/app/application.cpp:594-606 | the matched id is the last entry that is known and on the chain; none is found if and only if no entry is |
| `Sync.AnswerStarts` | libraries/app/application.cpp:589-619 | a synopsis is answered from the last entry that is known and on the chain; a peer is unreachable if and only if there is none |
| `Sync.CheckInventory` | libraries/net/node.cpp:2475-2546 | the requester's check decides exactly whether the list is numbered in sequence and starts where it was asked to |
| `Sync.HonestAnswer` | libraries/app/application.cpp:571-625 | an honest answer is linked, counts exactly what is left, and passes the check if and only if it is empty, the synopsis is, the match is a real block or block 1 was named |
| `SyncQueues.SpliceKeeps` | libraries/net/node.cpp:2624-2665 | merging two runs of consecutive numbers gives one, and merging linked lists a linked one |
| `SyncQueues.PeerQueue.ReceiveInventory` | libraries/net/node.cpp:2465-2688 | ignored, dropped, up to date or merged, each if and only if; what the queue is after a merge; and that a peer is dropped after it exactly if its last block would lie in the future |
| `SyncQueues.PeerQueue.PopFront` | libraries/net/node.cpp:3312-3321 | a block at the front of the queue leaves it |
| `SyncQueues.PeerQueue.Restart` | libraries/net/node.cpp:3974-3984 | restarting clears the queue |
| `SyncQueues.PeerQueue.Run` | libraries/net/node.cpp:2582-2667 | the queue is a run of consecutive block numbers over any sequence of events, and linked if every list received was |
| `SyncQueues.HonestRound` | libraries/net/node.cpp:2435-2667 | one round with an honest peer continues the queue where it ends and leaves exactly the rest of the peer's chain |
| `SyncQueues.RoundsReachHead` | libraries/net/node.cpp:2435-2720 | k rounds bring the queue k times (limit - 1) further or to the peer's head |
| `Framing.ReaderAgrees` | libraries/net/message_oriented_connection.cpp:165-166 | for every allowed size, including those where the unsigned subtraction wraps, reader and sender agree on the frame's length |
| `Framing.ParseFrame` | libraries/net/message_oriented_connection.cpp:144-173 | a frame followed by anything is read as its message, and reading goes on right after it |
| `Framing.RoundTrip` | libraries/net/message_oriented_connection.cpp:144-173 | any sequence of allowed messages is read back as sent, and every byte sent is counted as received |
| `Framing.TooLargeStops` | libraries/net/message_oriented_connection.cpp:163-163 | a larger message stops the reader at its header |
| `Framing.Sender.SendMessage` | libraries/net/message_oriented_connection.cpp:256-273 | the padded buffer that is written, and the bytes counted |
| `Framing.Sender.SendAll` | libraries/net/message_oriented_connection.cpp:256-273 | what has been written parses back to the messages, with equal byte counts |
| `Framing.ReadLoop` | libraries/net/message_oriented_connection.cpp:144-189 | the loop computes the parse of the stream |
| `Framing.ReadMessage` | libraries/net/message_oriented_connection.cpp:158-173 | one turn of the loop reads one frame |
| `BlockLogs.EntryAt` | libraries/chain/block_log.cpp:185-205 | where each block and its position lie in both files |
| `BlockLogs.BlockLog.Append` | libraries/chain/block_log.cpp:185-205 | appends exactly the next block and keeps log and index in agreement, refuses any other |
| `BlockLogs.BlockLog.GetBlockPos` | libraries/chain/block_log.cpp:244-258 | the position of the n-th block, none outside the range |
| `BlockLogs.BlockLog.ReadBlockByNum` | libraries/chain/block_log.cpp:228-242 | reading by number returns exactly the n-th block, and nothing outside the range |
| `BlockLogs.BlockLog.ReadHead` | libraries/chain/block_log.cpp:260-272 | the head is the last block |
| `BlockLogs.BlockLog.Replay` | libraries/chain/database.cpp:176-189 | reading on from the start visits every block once in order |
| `BlockLogs.BlockLog.ConstructIndex` | libraries/chain/block_log.cpp:279-307 | the whole index, except for a log of one block, which gets none |
| `BlockLogs.BlockLog.Open` | libraries/chain/block_log.cpp:92-173 | after opening, log and index agree if and only if the index was right or is rebuilt for a log of more than one block |
| `BlockLogs.PrefixRecovers` | libraries/chain/block_log.cpp:106-173 | an index that is any prefix of the true one is restored unless the log has one block and the index none |
| `Slots.SlotClock.SlotInverse` | libraries/chain/database.cpp:939-972 | slot number and slot time are inverse, and every time lies in the slot it is said to |
| `Slots.SlotClock.SlotIsDistance` | libraries/chain/database.cpp:939-972 | after block 1 the slot of a time is how many intervals it is ahead |
| `Slots.SlotClock.ApplyBlock` | libraries/chain/database.cpp:2956-3003 | the exact new clock; after block 1 the absolute slot keeps its distance from time divided by the interval |
| `Slots.SlotClock.FillSlots` | libraries/chain/database.cpp:2991-2997 | the 128-bit record after the filled and the missed slots, and a count that is its number of ones |
| `Slots.SlotClock.ApplyBlocks` | libraries/chain/database.cpp:931-972 | exactly the blocks in later slots are accepted, no two share a slot, and whose turn a time is does not depend on the head it is asked from |
| `Slots.OnesShift` | libraries/chain/database.cpp:2994-2996 | the count of ones follows the shift exactly |
| `Orders.MatchIsFair` | libraries/chain/database.cpp:3152-3180 | every match is at the resting order's price: one side sells all it has for exactly what that is worth, rounded down; positive amounts within what there is, and the taker's limit is honoured |
| `Orders.AsPrices` | libraries/protocol/asset.cpp:127-138 | when orders cross and which comes first, as prices |
| `Orders.Closed` | libraries/chain/database.cpp:3272-3286 | an order that closes has sold all or could not buy a unit with the rest |
| `Orders.BestDecides` | libraries/chain/database.cpp:3136-3139 | an order the best of the other book does not reach is reached by none |
| `Orders.BeforeTrans` | libraries/protocol/asset.cpp:127-138 | the order of the price index is transitive |
| `Orders.LeftOk` | libraries/chain/database.cpp:3272-3286 | what stays in the book is all that was not sold, and could still buy a unit |
| `Orders.PriceBounded` | libraries/chain/database.cpp:3137-3138 | no sound order is priced beyond the greatest price the search starts from |
| `Market.TradeKeeps` | libraries/chain/database.cpp:3152-3210 | a match leaves both books sound and closes the best order unless it closes the new one |
| `Market.TradeMirrors` | libraries/chain/database.cpp:3254-3291 | after both orders of a match have paid, the ledger holds exactly what every order of the books and the one in hand still sell |
| `Market.MarketDatabase.MatchBest` | libraries/chain/database.cpp:3152-3210 | the exact books and accounts after a match, interest on touched TSD included; the ledger stays balanced and holds what the orders sell |
| `Market.MarketDatabase.FirstCandidate` | libraries/chain/database.cpp:3136-3138 | the search for matches starts at the front of the book |
| `Market.MarketDatabase.ApplyOrder` | libraries/chain/database.cpp:3130-3150 | the loop ends; accounts and books are exactly those of matching as long as they cross, the books are uncrossed and the supplies whole |
| `Market.MarketDatabase.PlaceOrder` | libraries/chain/node_evaluator.cpp:1816-1830 | the amount leaves the owner and the order is settled: the exact accounts, books and rest |
| `Market.MarketDatabase.CreateOrder` | libraries/chain/node_evaluator.cpp:1808-1856 | the exact conditions and outcome of a new order; a refused one, fill-or-kill included, changes nothing |
| `Market.MarketDatabase.CancelOrder` | libraries/chain/node_evaluator.cpp:1858-1861 | exactly if the owner has an order of that id it leaves its book, the others stay, and what it had not sold is credited to the owner |
| `Market.MarketDatabase.Remove` | libraries/chain/database.cpp:3293-3297 | cancelling gives back exactly what is unsold |
| `Market.MarketDatabase.ExpireOrders` | libraries/chain/database.cpp:3310-3320 | exactly the expired orders are gone |
| `Market.MarketDatabase.Run` | libraries/chain/database.cpp:3130-3320 | over any sequence of operations the books are uncrossed, every order would still receive something, the ledger holds exactly what the orders sell, and all supplies are whole |
| `RewardCurves.CurveRises` | libraries/chain/util/reward.cpp:68-95 | every curve rises, and those used for weights stay below 2^64 |
| `RewardCurves.CurveIs` | libraries/chain/util/reward.cpp:68-95 | what each curve makes of the power of votes, without rounding |
| `RewardCurves.SqrtMono` | libraries/chain/util/reward.cpp:17-38 | the approximate square root rises |
| `RewardCurves.SqrtRange` | libraries/chain/util/reward.cpp:17-38 | even exponents give roots in the lower half of their binade, odd ones in the upper half |
| `RewardCurves.SqrtNear` | libraries/chain/util/reward.cpp:17-38 | the approximate root is never below the root rounded down, and its square at most an eighth too large |
| `RewardCurves.RatioMono` | libraries/chain/node_evaluator.cpp:1372-1374 | the older weight formula rises and is bounded |
| `Curation.Comment.AddVote` | libraries/chain/node_evaluator.cpp:1225-1412 | the exact new vote and total weight, and when it is refused; weights stay within the total, the total within the curve and 64 bits |
| `Curation.DiscountRises` | libraries/chain/node_evaluator.cpp:1386-1395 | a vote counts in proportion to its age in the auction, rounded down: for nothing at once, for all its weight from the end on |
| `Curation.Comment.ChangeVote` | libraries/chain/node_evaluator.cpp:1413-1510 | a changed vote loses its weight for good, and the total falls by just that |
| `Curation.Comment.CastAll` | libraries/chain/node_evaluator.cpp:1311-1515 | after any sequence of votes and changes the tally is exactly what each of them in turn makes of it, refused ones nothing; the weights fit in the total, and the total in the curve |
| `Curation.Comment.PayCurators` | libraries/chain/database.cpp:1479-1522 | each claim, their sum within the allotment, and what goes back |
| `Curation.PayBeneficiaries` | libraries/chain/database.cpp:1560-1568 | each cut, and their sum within the author's reward |
| `Curation.CashOut` | libraries/chain/database.cpp:1551-1575 | curators, beneficiaries, SCORE and TSD parts add up exactly to the claimed reward |
| `Curation.RewardWithinShare` | libraries/chain/util/reward.cpp:40-66 | a comment gets its share of the fund rounded down, nothing if that is dust, never more than it accepts, and no more than its claim is worth |
| `Curation.PayComments` | libraries/chain/database.cpp:1700-1776 | the fund covers all payouts of a block, all computed against the same snapshot |
| `Portions.SharesWithin` | libraries/chain/database.cpp:1499-1504 | shares of parts within a whole sum to no more than the amount |
| `Portions.PartIs` | libraries/chain/database.cpp:1499-1504 | a part is the greatest whole number that does not exceed it |
| `Delegation.PaidKeeps` | libraries/chain/database.cpp:1359-1440 | an instalment is the rate or the rest, comes out of stake that is not lent, and leaves the account covered |
| `Delegation.PowerDownPays` | libraries/chain/database.cpp:1359-1440 | an uninterrupted power-down pays exactly what was asked in ceil(amount / rate) instalments |
| `Delegation.DepositsWithin` | libraries/chain/database.cpp:1369-1424 | route deposits never exceed the instalment |
| `Delegation.FirstAccountUnpaid` | libraries/chain/database.cpp:1369-1393 | account 0 never receives stake through anybody's routes |
| `Delegation.DelegationDatabase.DelegateScore` | libraries/chain/node_evaluator.cpp:2192-2291 | exactly when a loan may be made, raised or lowered; the exact loans and accounts after it; what is taken back is due a full window later and not before the time of the loan, and counts as delegated until then |
| `Delegation.DelegationDatabase.ExpireReturns` | libraries/chain/database.cpp:3322-3339 | exactly the expired returns are gone, and delegated stake falls by just those |
| `Delegation.DelegationDatabase.Reserved` | libraries/chain/database.cpp:3322-3339 | until their time has come, returns still count as delegated |
| `Delegation.DelegationDatabase.WithdrawScore` | libraries/chain/node_evaluator.cpp:891-961 | exactly when a power-down may start, restart or stop, and that it is covered |
| `Delegation.DelegationDatabase.SetRoute` | libraries/chain/node_evaluator.cpp:963-1022 | the exact routes; those to accounts other than 0 never share out more than everything |
| `Delegation.DelegationDatabase.PayInstalment` | libraries/chain/database.cpp:1340-1456 | what goes where, routes to account 0 left out; the parts add up to the instalment and the total SCORE falls by what is paid in coin |
| `Delegation.DelegationDatabase.ProcessWithdrawals` | libraries/chain/database.cpp:1340-1458 | the single pass ends; whatever was due has paid at least once and nothing else has; if nobody is a whole interval late each pays exactly once and none is left due; a lone power-down pays exactly once |
| `Delegation.LoneStaysDue` | libraries/chain/database.cpp:1346-1348 | a lone power-down is still due after the pass if and only if it was a whole interval late with more than an instalment to pay |
| `Delegation.LateStaysDue` | libraries/chain/database.cpp:1346-1348 | any stake powered down and left for two intervals is still due after the pass, with one instalment paid |
| `Delegation.DelegationDatabase.CreateAccount` | libraries/chain/node_evaluator.cpp:187-278 | a new account with a loan, exactly if the creator can spare it, and the exact accounts, loans and routes after it |
| `Delegation.DelegationDatabase.ClearStake` | libraries/chain/database.cpp:1247-1261 | stake taken off an account whatever it is committed to keeps everything covered if and only if it was nothing, or the account has lent nothing and powers nothing down |
| `Delegation.DelegationDatabase.Run` | libraries/chain/node_evaluator.cpp:891-2291 | over any run, clearing the null account included: delegated is live loans plus unexpired returns, received is live loans, free stake covers the unfinished power-down, and no return arrives before its time |
| `Ledger.LedgerDatabase.constructor` | libraries/chain/database.cpp:2401-2440 | the equations hold at genesis if and only if the initial supply divides evenly |
| `Ledger.LedgerDatabase.AdjustBalance` | libraries/chain/database.cpp:3341-3384 | the exact new account, interest that is due first, and the TSD supply raised by it |
| `Ledger.LedgerDatabase.PayInterest` | libraries/chain/database.cpp:3351-3376 | what interest falls due on a balance that is touched, and the record of balance times seconds after it |
| `Ledger.AccrueSplit` | libraries/chain/database.cpp:3351-3376 | touching a balance in between makes no difference to its balance times seconds |
| `Ledger.InterestWithin` | libraries/chain/database.cpp:3356-3366 | interest is paid at most once in the compounding interval, and never more than the rate on what was held |
| `Ledger.LedgerDatabase.AdjustSavings` | libraries/chain/database.cpp:3386-3428 | the same for savings |
| `Ledger.LedgerDatabase.AdjustReward` | libraries/chain/database.cpp:3431-3447 | the exact new reward balance |
| `Ledger.LedgerDatabase.AdjustSupply` | libraries/chain/database.cpp:3450-3479 | the supply counted changes by the amount |
| `Ledger.LedgerDatabase.CreateScore` | libraries/chain/database.cpp:1028-1080 | what TME buys, rounded down, and where both are recorded |
| `Ledger.LedgerDatabase.WhenPriced` | libraries/chain/include/node/chain/global_property_object.hpp:64-80 | in every consistent state SCORE has a price unless the fund behind it is negative, and as a reward unless fund and pending TME leave nothing |
| `Ledger.BuysAtPrice` | libraries/chain/database.cpp:1028-1045 | new SCORE is the most that the price of the moment allows |
| `Ledger.SellsAtPrice` | libraries/chain/database.cpp:1398-1446 | SCORE is paid out at the price of the moment, rounded down |
| `Ledger.LedgerDatabase.CreateTsd` | libraries/chain/database.cpp:978-1022 | TME destroyed and TSD made at the median price, the rest kept as TME; which balance each reaches |
| `Ledger.LedgerDatabase.TransferTo` | libraries/chain/node_evaluator.cpp:862-879 | the exact accounts after a transfer, or no change |
| `Ledger.LedgerDatabase.TransferToScoreFund` | libraries/chain/node_evaluator.cpp:881-889 | TME moves into the fund and the receiver gets the SCORE it buys, exactly if it can be paid and priced; SCORE that was backed stays backed |
| `Ledger.LedgerDatabase.TransferToSavings` | libraries/chain/node_evaluator.cpp:2045-2053 | the exact accounts after moving to savings |
| `Ledger.LedgerDatabase.TransferFromSavings` | libraries/chain/node_evaluator.cpp:2055-2079 | exactly when a withdrawal is accepted, the exact accounts after it, and that the amount waits in it |
| `Ledger.LedgerDatabase.CancelFromSavings` | libraries/chain/node_evaluator.cpp:2081-2092 | the request goes, its amount is back in the savings it came from, and one request less is counted |
| `Ledger.LedgerDatabase.Convert` | libraries/chain/node_evaluator.cpp:1784-1806 | exactly when a conversion is accepted, by owner and request id, and what waits in it |
| `Ledger.LedgerDatabase.PlaceSale` | libraries/chain/node_evaluator.cpp:1808-1831 | what an order sells leaves the balance, interest first; the exact accounts and orders |
| `Ledger.LedgerDatabase.CancelSale` | libraries/chain/database.cpp:3293-3297 | the order is gone and exactly what is unsold is credited to its seller |
| `Ledger.LedgerDatabase.FillSale` | libraries/chain/database.cpp:3254-3291 | the seller receives, and what is left stays for sale or, when the order closes, goes back: the exact account and order |
| `Ledger.LedgerDatabase.FillSales` | libraries/chain/database.cpp:3152-3210 | what one order pays the other receives: the exact accounts and orders of both |
| `Ledger.LedgerDatabase.EscrowTransfer` | libraries/chain/node_evaluator.cpp:684-722 | amounts and fee leave the sender, exactly if he has them |
| `Ledger.LedgerDatabase.EscrowApprove` | libraries/chain/node_evaluator.cpp:724-783 | who may approve; a rejection returns both amounts and the fee to the sender, the second approval pays the agent the fee, any other approval moves nothing |
| `Ledger.LedgerDatabase.EscrowDispute` | libraries/chain/node_evaluator.cpp:785-804 | exactly when a dispute may be raised |
| `Ledger.LedgerDatabase.EscrowRelease` | libraries/chain/node_evaluator.cpp:806-860 | exactly who may release what to whom, and that an emptied escrow loses nothing |
| `Ledger.LedgerDatabase.ExpireEscrows` | libraries/chain/database.cpp:2117-2134 | exactly the escrows not approved in time are returned: the accounts are those after crediting each sender both amounts and the fee, in some order |
| `Ledger.LedgerDatabase.ClaimReward` | libraries/chain/node_evaluator.cpp:2150-2190 | claimed TME and TSD become liquid; claimed SCORE takes its share of the TME set aside with it, all of it with the last; SCORE stays backed if and only if there was a fund, TME came along, or nothing was claimed |
| `Ledger.LedgerDatabase.CreateAccount` | libraries/chain/node_evaluator.cpp:110-185 | the creator alone pays the fee, and the new account holds nothing but the SCORE the fee buys |
| `Ledger.LedgerDatabase.PayComment` | libraries/chain/database.cpp:1551-1594 | exactly when a comment can be paid; every curator, beneficiary and the author get in SCORE exactly what is meant for them, the author alone the TSD and TME made of the rest; the claim leaves the fund, and the supply equations survive if and only if that is what was handed out |
| `Ledger.RewardedAt` | libraries/chain/database.cpp:1499-1571 | each receiver of a list of rewards gets his entries, worth what they buy at their turn, and nothing else about anybody changes |
| `Ledger.LedgerDatabase.PaySplit` | libraries/chain/database.cpp:1551-1594 | a payout whose parts add up to its claim keeps the equations, takes exactly the claim from the fund and reaches everybody it names |
| `Cashouts.CashOutComment` | libraries/chain/database.cpp:1531-1594 | a comment's votes, beneficiaries and settings decide who is paid how much and in what; the ledger stays balanced; the fund loses the whole reward, or less if curation is not allowed; or nothing happens, exactly if it cannot be paid |
| `Ledger.LedgerDatabase.PayRewardFunds` | libraries/chain/database.cpp:2001-2023 | each fund gets exactly its shares |
| `Ledger.LedgerDatabase.ProcessFunds` | libraries/chain/database.cpp:1790-1846 | which fund gets which share, what goes behind SCORE and what the producer gets for the rest; new TME is counted exactly as it is handed out, despite all rounding, and any of it that goes behind SCORE makes SCORE backed |
| `Ledger.LedgerDatabase.ProcessConversions` | libraries/chain/database.cpp:2030-2067 | exactly the due conversions are paid, each owner at the median price in some order; the supplies change by exactly what was converted and issued |
| `Ledger.LedgerDatabase.ProcessSavings` | libraries/chain/database.cpp:1868-1887 | exactly the due withdrawals are paid, each to its receiver, in some order, and counted off at the sender |
| `Ledger.LedgerDatabase.Withdraw` | libraries/chain/database.cpp:1359-1458 | an instalment keeps the equations and moves SCORE exactly as asked; every receiver of coin gets the worth of his parts at their turn, the account that of its own last, and the fund loses just that; with a fund behind SCORE it always succeeds and leaves one |
| `Ledger.FundPays` | libraries/chain/database.cpp:1395-1424 | what the fund pays for the deposits of an instalment is what all their receivers get |
| `Ledger.PayoutKeepsSolvent` | libraries/chain/database.cpp:1398-1446 | rounding down keeps the fund from running out before SCORE does |
| `Ledger.MoreKeepsSolvent` | libraries/chain/database.cpp:1028-1080 | new SCORE always comes with TME behind it |
| `Ledger.FundCoversPayout` | libraries/chain/database.cpp:1398-1446 | the fund covers a payout if and only if there is one or the payout is worth nothing |
| `Ledger.LedgerDatabase.ClearNull` | libraries/chain/database.cpp:1215-1302 | what the null account holds is destroyed, but for interest that falls due meanwhile; both supplies and the total SCORE fall by exactly that, no other account changes, and SCORE that was backed stays backed |
| `Ledger.LedgerDatabase.Run` | libraries/chain/database.cpp:3921-4035 | from any state that satisfies the supply equations every operation and block-end step keeps them; backed SCORE stays backed over any run without an unbacked claim |
| `Nodes.PartsFit` | libraries/chain/database.cpp:1359-1456 | for any routes, votes, ledger and delegations compute the same SCORE of every account after an instalment |
| `Nodes.AlwaysEnoughLent` | libraries/chain/node_evaluator.cpp:203-216 | the test on what a new account is lent is passed by every fee that is accepted |
| `Nodes.Node.constructor` | libraries/chain/database.cpp:2401-2440 | genesis satisfies every invariant of the node if and only if the initial supply divides evenly |
| `Nodes.Node.PowerUp` | libraries/chain/node_evaluator.cpp:881-889 | exactly when it is accepted; the SCORE bought reaches account, votes and total alike |
| `Nodes.Node.Claim` | libraries/chain/node_evaluator.cpp:2150-2190 | exactly when it is accepted; claimed SCORE starts to vote and to be lent |
| `Nodes.Node.Produce` | libraries/chain/database.cpp:1790-1846 | exactly when new TME can be handed out, and to whom; the producer's part becomes SCORE that counts everywhere by the same amount |
| `Nodes.Node.Register` | libraries/chain/node_evaluator.cpp:110-278 | a new account, exactly if its creator can pay the fee and spare the loan; its SCORE is what the fee buys, and the loan is on both accounts |
| `Nodes.Node.PayInstalment` | libraries/chain/database.cpp:1340-1458 | one instalment through votes, ledger and delegations at once, or none of it: what each receives as stake and in coin; with a fund behind SCORE it is refused exactly when a witness would for a moment have too many votes |
| `Nodes.Node.ClearNull` | libraries/chain/database.cpp:1215-1302 | everything the null account holds is destroyed, its SCORE for votes and total alike |
| `Nodes.Node.ValidateInvariants` | libraries/chain/database.cpp:3921-4035 | in every consistent state all sums over the whole database are right: TME, TSD, SCORE with rewards, TME set aside for them, stored votes against the total, no witness above it, and nobody has promised more SCORE than he has |
| `Nodes.Node.Run` | libraries/chain/database.cpp:3921-4035 | over any sequence of transfers, orders, votes, loans, power-downs, accounts and block steps, whatever each answers, votes, ledger, market and delegations hold the same and every one of these assertions is true |

## Left out

- Signatures, hashing, merkle roots and packing: ids are records, and packing is a lawful codec given to the block log.
- Proof of work, liquidity rewards, and everything before the last hard fork except the older weight formula.
- Median witness properties, majority version, median price feed, virtual supply: their values are parameters or unused.
- Fibers, timers, sockets, rate limits and the peer database.
- Queries, plugins, scripts, comments as content, authorities and account recovery: no invariant beyond single calls.
- Proxy loops: the evaluator keeps a pointer to a local copy while it follows the chain; the chain it means to follow is modelled.
- `ForkChoice.ChainDatabase.PushBlock`: leaves pending transactions out, and says of a stuck node only what its log and fork database are.
- Restarting from a block log, with the fork database started at its head, is not a step of the chain database.
- Fork database: blocks are never marked invalid.
- `SyncQueues.PeerQueue.ReceiveInventory`: block times are unbounded; the 32-bit sums of the code are not written out.
- `SyncQueues.PeerQueue.Run`: keeps numbers consecutive and lists linked; that the queue starts right after the reference point is not an invariant of the code.
- `Market.MarketDatabase.CreateOrder`: leaves out orders priced beyond the greatest price, which the search for matches passes over; only an order for more than 10^18 units can be one (`Orders.PriceBounded`).
- `Curation.Comment.CastAll`: covers a comment until it is paid; the reset after payout and later votes carry no weight and are left out.
- `Curation.CashOut`: how the TSD part is split again by the print rate is stated by the ledger.
- `Delegation.DelegationDatabase.ProcessWithdrawals`: how often an account several intervals late pays in one pass depends on whose times lie between; stated only for a lone one.
- `Delegation.DelegationDatabase.CreateAccount`: the fee is the business of `Nodes.Node.Register`; the median fee is a parameter there.
- `Voting.VotingDatabase.WitnessUpdate`: keeps only the id, the key and the schedule fields of a witness.
- `Voting.VotingDatabase.CreateAccount`: fees are the business of `Nodes.Node.Register`; keys and authorities are not part of the model.
- `Slots.SlotClock.ApplyBlock`: times and slots are unbounded, and missed blocks are not charged to witnesses.
- `Ledger.LedgerDatabase.PlaceSale`: the order's price and matching are in `Market`, which calls it.
- `Ledger.LedgerDatabase.FillSales`: takes the amounts that `Market` computes and passes.
- `Ledger.LedgerDatabase.ProcessFunds`: the inflation rate and the witness's pay weight are parameters.
- `Ledger.LedgerDatabase.Withdraw`: takes the instalment and the route deposits, which `Nodes.Node.PayInstalment` computes.
- `Nodes.Node.Run`: instalments are steps of their own, in any order; the pass over due accounts is in `Delegation`.
