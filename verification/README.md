# AobaZero, modelled in Dafny

A distributed Shogi learner has parts whose correctness is decided by a few lines of dense code: a board that keeps the
same position in half a dozen redundant forms, a move generator that never makes a move to test it, a convolution
computed through transforms, kernels that share their work among items, threads that pass batches around, and protocols
that must survive a broken connection. This project models these parts of the repository and proves what they promise,
for every input, every run or every reachable state.

| files | part of the program |
|---|---|
| ShogiGeometry, ShogiRotation | squares, rays and attacks; the generated lookup tables and the rotated bitboards |
| ShogiLegality, ShogiRules, ShogiDropMate | legal actions, and the shortcuts (pins, evasion targets, the mating pawn) |
| ShogiBoardMaps, ShogiQueries, ShogiBoard, ShogiAccounts | the board: maps, queries, update and undo, keys, conservation |
| ShogiGame, ShogiStart, ShogiNode | games: invariants, starting positions, repetition, the node |
| ShogiMoveCount, ShogiMoveGen | the move generator, exact and within its buffer |
| Winograd, WinogradConv, WinogradNet | the F(3x3,3x3) convolution and the fused residual tower |
| SgemmTuning, SgemmKernel, SgemmItems, SgemmGroup, SgemmPadded | the tiled matrix product and its tuning filters |
| NnetService, NnetServiceRuns | the evaluation service as steps of threads and clients in any order |
| Pigeonhole, HashLinks, HashTable, HashLru | the intrusive hash table with its recency list |
| Features, FeaturePack, FeatureFit, FeatureDecode, FlatIndex | input planes: compressing, packing batches, whether they fit, unpacking on the device |
| XzFields, XzDecode | the tokenizer over the decompressor |
| WeightDownload, WeightClient | the resumable download of weights |
| RecordArchive, RecordRuns, ConnLimit | record keeping with deduplication, and the limiter of connections |

Classes and methods stand where the program updates fields and arrays in place; what they do is tied to functions on
values, about which the lemmas speak. Floating-point numbers are exact reals. Keys are sets of random numbers under
symmetric difference, bitboards are sets of squares, 32-bit indices are unbounded.

## Findings

- `Node::clear` with a handicap lets White move first but leaves the board key at zero, so in handicap games the carried
  key is that of the position with the other side to move (`ShogiGame.CarriedKeyIsMade` has the exact condition), and the
  key test of `Board::ok` (src/common/shogibase.cpp:200) fails there. Its fixed piece counts (278-279) fail in every
  position of exactly the same games (`ShogiStart.DemandedCountsInGame`). Repetition is not affected
  (`ShogiGame.RepetitionKept`).
- `action_ok_easy` does not test how a piece moves, and `action_interpret` hands it moves read from text, so
  `action_ok_full` accepts a king that leaps (`ShogiBoard.KingLeaps`). A pawn that steps to another file on which its side
  has one passes the test as well, but fails an assertion of `place_sq` (`ShogiBoard.PawnAside`); where assertions are
  compiled out, as Makefile:9-14 has it by default, testing such a move clears the flag of that file and undo does not
  bring it back (`ShogiBoard.FlagsRestored` has the exact condition).
- `action_ok_easy` means to enforce `Action::ok`, but tests `!turn.ok() && !a.ok()` (317), which is false for every valid
  turn. So it admits captures of a king and promotions of pieces that cannot promote (`ShogiRules.EasyButNotOk`,
  `ShogiRules.KingTaken`), which fail the assertions of `update` (529, 535); `ShogiBoard.EasyUpdatesExactly` has the exact
  condition under which none fails.
- `HashTable::ok` tests the wrong pointer at src/common/hashtbl.hpp:137 (`*used_bfp`, null by then), so that this range
  check rejects nothing (`HashTables.RangeCheckIdle`) and a chain that leads behind the array is followed there. The
  verdict is right all the same (`HashTables.HashTable.Ok`), except that no test compares keys
  (`HashTables.DoubleKeySound`).
- The 2048 words a sample that are allocated for a packed batch (src/common/nnet-ocl.cpp:2202-2203) are enough for
  samples of up to 864 ones, hence for the 512 of the build without USE_POLICY2187, but not for the 1024 of the build that
  Makefile.config:30 selects (`FeatureFit.BuildFits`): one sample of 865 ones with 1023 moves overflows them
  (`FeatureFit.Overflow`). There a batch is safe if ones and moves of each sample are together at most 1857
  (`FeatureFit.SumFitsExactly`).
- `NNInBatchCompressed::add` asserts that the ones of the whole batch stay below the bound of one sample
  (src/common/nnet.cpp:174), while the buffer is allocated for that many in each sample (159). The assertion holds
  throughout exactly if the whole batch has at most as many ones as one sample may (`FeaturePack.AssertsHoldExact`); two
  full samples fail it (`FeatureFit.TwoSamplesFail`). The model demands only what the allocation needs.
- `handle_recv` accepts a block request that starts right at the end of the weight (src/server/listen.cpp:511), for which
  `handle_send` asserts a non-empty rest (`WeightDownload.Peer.AskBlock`); there is such a request exactly if the length is
  a multiple of the block size (`WeightDownload.EndBlock`). The client of the repository never makes it.
- The tuning of the matrix product finds nothing to try, and gives up, for products too shallow for the smallest tile
  (`SgemmTuning.Candidates`).

## Model

| member | source | states |
|---|---|---|
| ShogiRotation.LookupIsWalk | src/gencode/gencode.cpp:387-475 | for every occupancy, square and ray, the entry of the attack table at the seven-bit index read from the rotated words is the set of squares that a walk along the ray reaches up to and with the first blocker |
| ShogiRotation.GenEntry | src/gencode/gencode.cpp:407-475 | the generator loops, whose bound looks at one coordinate only, produce exactly that table entry, also on the two diagonal tables |
| ShogiRotation.TableFileIsRotation | src/gencode/gencode.cpp:120-128 | the literal rotation table for files is the coordinate rotation used everywhere |
| ShogiRotation.TableDiag1IsRotation | src/gencode/gencode.cpp:130-138 | the literal table of the first diagonal, whose two short diagonals share a row, is the coordinate rotation |
| ShogiRotation.TableDiag2IsRotation | src/gencode/gencode.cpp:140-148 | the same for the second diagonal |
| ShogiRotation.WindowCovers | src/gencode/gencode.cpp:387-405 | the word and shift of the generated table put the seven inner squares of the line through a square under the mask of BMap::to_bits |
| ShogiRotation.LookupSees | src/common/shogibase.cpp:401-405 | to_atk on a board whose rotated map holds an occupancy returns exactly the squares seen along the ray |
| ShogiRotation.Obstacle | src/gencode/gencode.cpp:170-194 | the generated obstacle set of two squares is the set of squares strictly between them |
| ShogiLegality.MoveSafety | src/common/shogibase.cpp:348-360 | after a move of a man other than the king, the king is attacked exactly if the man was pinned or some checker was neither captured nor blocked |
| ShogiLegality.DropSafety | src/common/shogibase.cpp:348-360 | after a drop the king is attacked exactly if some checker is not blocked |
| ShogiLegality.KingSafety | src/common/shogibase.cpp:751-764 | a king step is safe exactly if its target is not attacked with the king itself taken off the lines |
| ShogiRules.NonKingSafe | src/common/shogibase.cpp:825-877 | the test by pins and evasion targets agrees with the test after the move, for moves and drops other than king moves |
| ShogiRules.AtMostTwoCheckers | src/common/shogibase.cpp:831-835 | from a position in which the opponent was not in check, one action gives at most two checks |
| ShogiRules.TwoCheckersNeedKing | src/common/shogibase.cpp:831-833 | with two checkers no capture and no block answers both |
| ShogiRules.EasyButNotOk | src/common/shogibase.cpp:316-317 | an action that action_ok_easy admits fails Action::ok exactly if it captures a king or promotes a piece that cannot promote |
| ShogiRules.KingTaken | src/common/shogibase.cpp:317 | a gold that takes the king beside it is such an action |
| ShogiDropMate.DropMateExact | src/common/shogibase.cpp:362-399 | if the side to be mated is not already in check, the test of is_mate_by_drop_pawn holds exactly if the dropped pawn gives check and no legal action answers it |
| ShogiBoardMaps.OkPut | src/common/shogibase.cpp:449-474 | placing a man keeps mailbox, piece, colour and pawn-attack bitboards, the four rotated maps and the pawn-file flags in agreement |
| ShogiBoardMaps.OkRemove | src/common/shogibase.cpp:476-501 | taking a man off keeps them in agreement |
| ShogiBoardMaps.OkToggle | src/common/shogibase.cpp:445-447 | toggling a square in the four rotated maps makes them show the occupancy without, or with, that square |
| ShogiBoardMaps.AgreeUnique | src/common/shogibase.cpp:449-501 | the maps are determined by the mailbox and the occupancy, so whatever restores those restores the maps |
| ShogiQueries.AttackersExact | src/common/shogibase.cpp:407-420 | to_attacker returns exactly the men that attack the square, for any occupancy the rotated maps show |
| ShogiQueries.CheckExact | src/common/shogibase.cpp:407-420 | the incheck test on the bitboards says whether the king is attacked |
| ShogiQueries.PinExact | src/common/shogibase.cpp:422-443 | is_pinned holds exactly if a slider stands behind the man on the line to the king and the move leaves that line |
| ShogiQueries.EasyExact | src/common/shogibase.cpp:316-346 | action_ok_easy on the bitboards agrees with its reading of mailbox and hands |
| ShogiQueries.NoCaptureExact | src/common/shogibase.cpp:374-388 | the loop over the possible captures of the dropped pawn fails exactly if every one of them is pinned |
| ShogiQueries.NoEscapeExact | src/common/shogibase.cpp:390-399 | the loop over the king steps, with the pawn on the lines, finds none exactly if every step is to an own man or an attacked square |
| ShogiBoard.Board.PlaceSq | src/common/shogibase.cpp:449-474 | place_sq: the whole new board, key included, with do_aux or without |
| ShogiBoard.Board.RemoveSq | src/common/shogibase.cpp:476-501 | remove_sq: the whole new board, key included, with do_aux or without |
| ShogiBoard.Board.PlaceHand | src/common/shogibase.cpp:503-509 | place_hand: one more piece in hand, with the key and the hand total that belong to it |
| ShogiBoard.Board.RemoveHand | src/common/shogibase.cpp:511-517 | remove_hand: one piece fewer in hand, with the key and the hand total that belong to it |
| ShogiBoard.Board.Update | src/common/shogibase.cpp:519-539 | update leads to the position after the action and keeps every redundant part of the board in agreement with it |
| ShogiBoard.Board.Undo | src/common/shogibase.cpp:541-559 | undo takes the mailbox, the hands, the maps and the totals back to those before the action |
| ShogiBoard.Board.UpdateUndo | src/common/shogibase.cpp:519-559 | undo after update restores the entire board, for captures, promotions, drops and king moves, with do_aux or without; in between the incheck test sees the position after the action |
| ShogiBoard.Board.IsMateByDropPawn | src/common/shogibase.cpp:362-399 | is_mate_by_drop_pawn answers the mating-drop test and leaves the maps as they were |
| ShogiBoard.Board.ActionOkFull | src/common/shogibase.cpp:348-360 | for every action, action_ok_full says yes exactly to resignations, to declarations that is_nyugyoku admits and to board actions that action_ok_easy and Action::ok admit, that do not leave the own king attacked and are no mating pawn drop, unless an assertion of update fails, which it says exactly; a board action it says yes to is legal exactly if it stays inside the attack set; the board is left unchanged |
| ShogiBoard.EasyUpdatesExactly | src/common/shogibase.cpp:519-539 | a board action that action_ok_easy admits meets the assertions of update exactly if it captures no king, promotes nothing that cannot be promoted, puts no second pawn on a file and there is room in the hand |
| ShogiBoard.PawnAside | src/common/shogibase.cpp:316-346 | a pawn that steps aside to a file with an own pawn passes every test, but not the assertions of update |
| ShogiBoard.KingLeaps | src/common/shogibase.cpp:316-346 | a king that leaps over the board passes every test and every assertion, and is not legal |
| ShogiBoard.FlagsRestored | src/common/shogibase.cpp:449-559 | without assertions, update and undo of an admitted move restore the pawn-file flags exactly if it puts no second pawn on a file |
| ShogiAccounts.MakeZkey | src/common/shogibase.cpp:154-167 | make_zkey XORs the keys of all men, all hands and the turn |
| ShogiAccounts.KeyFollows | src/common/shogibase.cpp:519-539 | the keys that update XORs in lead from the key of a position to the key of the position after the action |
| ShogiAccounts.PiecesConserved | src/common/shogibase.cpp:519-539 | no action makes or loses a piece of any kind, promoted or not, on the board or in hand |
| ShogiAccounts.TotalsFollow | src/common/shogibase.cpp:503-539 | the running hand totals stay the sums over the hands |
| ShogiStart.PlaceAll | src/common/shogibase.cpp:592-626 | the placing loops of clear put up exactly the starting position of each handicap |
| ShogiStart.StartIsGood | src/common/shogibase.cpp:586-626 | every starting position, even or with a handicap, satisfies the invariant of positions |
| ShogiStart.DemandedCountsAtStart | src/common/shogibase.cpp:278-279 | the piece counts that Board::ok demands hold at the start exactly if there is no handicap |
| ShogiStart.DemandedCountsInGame | src/common/shogibase.cpp:278-279 | they hold in every position of an even game and in no position of a handicap game |
| ShogiGame.CarriedKeyIsMade | src/common/shogibase.cpp:586-666 | the key the board carries is the one made afresh from the position exactly in even games, or if the key of the turn is zero |
| ShogiGame.CarriedKeysAgree | src/common/shogibase.cpp:648-656 | carried keys agree exactly when the keys made afresh do |
| ShogiGame.RepetitionKept | src/common/shogibase.cpp:648-663 | the verdict on a game from the carried keys is the verdict from the keys made afresh |
| ShogiGame.LegalUpdates | src/common/shogibase.cpp:519-539 | every legal action of a good position meets what update asserts |
| ShogiGame.PosKept | src/common/shogibase.cpp:634-666 | every legal action leads from a good position to a good position: men where they may stand, both kings, the side that moved not in check, at most two checkers, no kind beyond a full set |
| ShogiGame.StepKeepsGood | src/common/shogibase.cpp:634-666 | take_action keeps the invariant of games: no key has occurred four times while the game is interior |
| ShogiGame.RunsStayGood | src/common/shogibase.cpp:634-666 | along every run of actions the invariant holds, and every interior action lengthens the path by one |
| ShogiGame.GamesEnd | src/common/shogibase.cpp:634-666 | every game is over after at most N actions |
| ShogiNode.RunIsSince | src/common/shogibase.cpp:648-663 | comparing half the distance with the run of checks tests whether the side was in check on all its turns since the first occurrence |
| ShogiNode.Judge | src/common/shogibase.cpp:653-664 | the loop back over the path finds the repetition count and the verdict: the fourth occurrence is a win for a side checked on all its turns since the first, otherwise a draw |
| ShogiNode.Node.constructor | src/common/shogibase.cpp:586-632 | clear puts up the starting position and its first records |
| ShogiNode.Node.TakeAction | src/common/shogibase.cpp:634-666 | take_action takes the game to the next one, and keeps board, path and check records in agreement with its history |
| ShogiMoveGen.GeneratedExact | src/common/shogibase.cpp:825-877 | with targets that deal with every check, the shapes that the generators produce are exactly the legal board actions |
| ShogiMoveGen.NoEvasion | src/common/shogibase.cpp:855-877 | without a check all squares but those of own men are the right targets, and all empty ones for drops |
| ShogiMoveGen.OneEvasion | src/common/shogibase.cpp:835-853 | with one checker the squares between and, for moves, the checker are the right targets |
| ShogiMoveGen.TwoEvasions | src/common/shogibase.cpp:831-833 | with two checkers the legal actions are exactly the safe king steps |
| ShogiMoveGen.MoveSet.GenKing | src/common/shogibase.cpp:751-764 | gen_king lists the safe king steps, each once, and leaves the maps as they were |
| ShogiMoveGen.MoveSet.GenPawn | src/common/shogibase.cpp:739-749 | gen_pawn adds the unpinned pawn moves to the target, each once, with both forms where both exist |
| ShogiMoveGen.MoveSet.GenGroup | src/common/shogibase.cpp:766-796 | gen_nsg and gen_slider add the unpinned moves of one group of pieces to the target, each once |
| ShogiMoveGen.MoveSet.GenDrop | src/common/shogibase.cpp:799-822 | gen_drop adds every drop on the target that the rules allow, each once, no second pawn on a file and no mating pawn among them |
| ShogiMoveGen.MoveSet.GenAllEvasion | src/common/shogibase.cpp:824-853 | in check the list is every legal board action once and nothing else |
| ShogiMoveGen.MoveSet.GenAllNoEvasion | src/common/shogibase.cpp:855-877 | out of check the list is every legal board action once and nothing else |
| ShogiMoveGen.MoveSet.GenAll | src/common/shogibase.cpp:879-884 | in every reachable interior position the list is every legal board action once and nothing else, fits its 1024 places, and node and board are as before |
| ShogiMoveCount.LegalFew | src/common/shogibase.cpp:731-822 | a list of different legal actions of a good position is shorter than the 1024 places that the assertions demand |
| Winograd.F33 | src/common/nnet-cpu.cpp:39-46 | the one-dimensional transforms give three convolution outputs from five inputs and three weights |
| Winograd.MatVSeparates | src/common/nnet-cpu.cpp:255-374 | each of the twenty-five expanded formulas of compute_matV_child is the product of the two one-dimensional transforms |
| Winograd.MatASeparates | src/common/nnet-cpu.cpp:376-431 | each of the nine expanded formulas of compute_matA_child is the product of the two one-dimensional transforms |
| Winograd.TileConvolves | src/common/nnet-cpu.cpp:255-431 | transforming kernel and tile, multiplying cell by cell and transforming back gives the convolution of the tile |
| WinogradConv.TileIsPlane | src/common/nnet-cpu.cpp:255-290 | the tiles cut the zero-padded board so that tile outputs are board outputs |
| WinogradConv.ChannelsConvolve | src/common/nnet-cpu.cpp:461-498 | summing the products over the channels before the transform back gives the convolution summed over the channels |
| WinogradConv.USumIsTransform | src/common/nnet-cpu.cpp:84-104 | the nested sums of gen_matU are the kernel transform |
| WinogradNet.MatVChild | src/common/nnet-cpu.cpp:255-374 | matV of one plane: all nine tiles of the zero-padded plane are transformed in place, and no other cell is touched |
| WinogradNet.MatVInput | src/common/nnet-cpu.cpp:433-445 | the input planes of all samples and channels are transformed |
| WinogradNet.GenMatU | src/common/nnet-cpu.cpp:84-104 | gen_matU fills the array with the transforms of all kernels |
| WinogradNet.MatM | src/common/nnet-cpu.cpp:461-498 | the twenty-five matrix products hold, cell by cell, the sums over the channels |
| WinogradNet.MatAChild | src/common/nnet-cpu.cpp:376-431 | matA gives the 3x3 convolution of the zero-padded planes, summed over the channels |
| WinogradNet.AForkV | src/common/nnet-cpu.cpp:500-514 | the fused step after the input layer: normalised, rectified, kept as the shortcut and transformed for the next layer |
| WinogradNet.APlainV | src/common/nnet-cpu.cpp:546-559 | the fused step inside a block: normalised, rectified and transformed |
| WinogradNet.AJoinForkV | src/common/nnet-cpu.cpp:516-531 | the fused step at the end of a block: the shortcut is added before rectifying, then kept and transformed |
| WinogradNet.AJoinFork | src/common/nnet-cpu.cpp:533-544 | the fused step at the end of the last block |
| WinogradNet.ReachedIsTower | src/common/nnet-cpu.cpp:608-648 | the order of steps in the loop over the layers is that of the plain residual tower |
| WinogradNet.PushBody | src/common/nnet-cpu.cpp:595-648 | the fused layer loop leaves the plain residual tower of every sample, for all weights, inputs, channel counts and batch sizes |
| SgemmTuning.Candidates | src/common/nnet-ocl.cpp:1487-1515 | the tuning loops list exactly the parameter sets that the filters admit, every one of them fits the kernel and the work group, and there is one exactly if the depth reaches the longer side of the smallest tile and that tile fits the work group, in terms of the sizes of the matrices |
| SgemmTuning.AdmittedFit | src/common/nnet-ocl.cpp:1487-1515 | the filters imply what the kernel silently demands: even shares of both tiles and as many rows in the second tile as the result tile that overlays it needs |
| SgemmTuning.SomethingLeft | src/common/nnet-ocl.cpp:1487-1515 | the filters leave a parameter set exactly if the smallest tile fits a work group and the depth reaches the longer side of that tile |
| SgemmTuning.CeilPower2 | src/common/nnet-ocl.cpp:861-864 | the least power of two not below the argument |
| SgemmKernel.MovedOnce | src/common/nnet-ocl.cpp:769-779 | in a load or store phase each cell of a tile is moved by exactly one work item in exactly one turn of its loop |
| SgemmKernel.Load | src/common/nnet-ocl.cpp:774-780 | one load phase fills the local tile with the part of the matrix |
| SgemmItems.Accumulate | src/common/nnet-ocl.cpp:782-790 | one compute phase adds the products of the tile to the private cells of all work items |
| SgemmGroup.FitsShares | src/common/nnet-ocl.cpp:769-779 | with an admitted parameter set the items of a work group are exactly those that move both tiles |
| SgemmGroup.Stage | src/common/nnet-ocl.cpp:792-797 | the work items write one row of results each to the local array that overlays the second tile, in bounds |
| SgemmGroup.Store | src/common/nnet-ocl.cpp:798-799 | the work items copy the staged rows to their places in the result and touch nothing else |
| SgemmGroup.Group | src/common/nnet-ocl.cpp:758-800 | one work group makes its part of the result the product and changes nothing else |
| SgemmGroup.Sgemm | src/common/nnet-ocl.cpp:820-836 | all work groups together make every cell of the result the plain matrix product |
| SgemmPadded.Pad | src/common/nnet-ocl.cpp:838-843 | to1 copies a matrix from any place of a flat buffer, with any distance of rows, into the upper left of a zeroed one |
| SgemmPadded.Unpad | src/common/nnet-ocl.cpp:845-849 | to0 copies the upper left part to such a place and changes nothing else |
| SgemmPadded.Multiply | src/common/nnet-ocl.cpp:977-996 | for matrices of any size, offset and leading dimension and every parameter set that fits, padding, multiplying and copying back give the matrix product and change nothing else |
| NnetService.StartInv | src/common/nnet-srv.cpp:98-262 | the invariant holds in the starting state |
| NnetService.KeepInv | src/common/nnet-srv.cpp:98-262 | every step of every thread and client keeps the invariant |
| NnetService.RunsKeepInv | src/common/nnet-srv.cpp:98-262 | so it holds along every interleaving |
| NnetService.KeepPlaced | src/common/nnet-srv.cpp:44-262 | each submitted request sits in exactly one place: the job list, a thread, one row of one batch, or its answer |
| NnetService.LineStep | src/common/nnet-srv.cpp:98-262 | the unanswered requests form one first-in-first-out line through job list, batches and threads; each step adds at its end, takes from its head or leaves it |
| NnetService.KeepWakeups | src/common/nnet-srv.cpp:98-141 | no wake-up is lost: a blocked thread has nothing to do, or the notify for it is still due |
| NnetServiceRuns.JobsFit | src/common/nnet.hpp:138 | the job list never exceeds its slots |
| NnetServiceRuns.OwnAnswer | src/common/nnet-srv.cpp:83-93 | a client that gets through its semaphore finds the answer computed from its own input |
| NnetServiceRuns.RequestAnswered | src/common/nnet-ipc.cpp:80-90 | a request that is collected returns the answer to the input it was submitted with, whatever the others did in between |
| NnetServiceRuns.AnsweredOnce | src/common/nnet-srv.cpp:83-93 | in every run the requests of a client and the answers to it differ by the one that may still be in the line |
| NnetServiceRuns.NoOvertaking | src/common/nnet-srv.cpp:83-119 | no evaluation overtakes another |
| NnetServiceRuns.Progress | src/common/nnet-srv.cpp:98-141 | while some client waits, some step other than a new request or a spurious wake-up is enabled |
| NnetServiceRuns.RankFalls | src/common/nnet-srv.cpp:98-262 | every worker step lowers a measure that only requests and spurious wake-ups raise |
| NnetServiceRuns.Drains | src/common/nnet-srv.cpp:98-262 | every run takes at most as many steps as that measure, 17 for each new request and two for each spurious wake-up; where it can only go on with one of these, every client has collected its answer |
| HashLinks.UnlinkOk | src/common/hashtbl.hpp:70-89 | taking an entry off a list through its back pointer keeps all lists and back pointers |
| HashLinks.AppendOk | src/common/hashtbl.hpp:96-104 | writing an entry into the end slot of a list keeps all lists and back pointers |
| HashLinks.EndAfterUnlink | src/common/hashtbl.hpp:87-89 | the end slot of the chain being extended moves to the back pointer of the dropped entry exactly if it was that entry's own |
| HashTables.HashTable.constructor | src/common/hashtbl.hpp:46-61 | reset: an empty table whose entries are all on the free list |
| HashTables.HashTable.Access | src/common/hashtbl.hpp:63-106 | operator[] refines one use of a bounded least-recently-used map, also when the evicted entry lies in the chain being extended; chains, recency list and free list go on partitioning the entries |
| HashTables.HashTable.Store | src/common/hashtbl.hpp:63-106 | assigning through the returned reference changes the value of that key only |
| HashTables.HashTable.At | src/common/hashtbl.hpp:63-68 | the read-only look-up finds a key exactly if the map holds it, with its value |
| HashTables.HashTable.Ok | src/common/hashtbl.hpp:110-158 | for a table in any state, ok() is true exactly if its lists are in order and share out the entries; an entry behind the array is read only of a table that is not in order |
| HashTables.HashTable.ValidIsSound | src/common/hashtbl.hpp:110-158 | so ok() is true in every state the operations can reach |
| HashTables.RangeCheckIdle | src/common/hashtbl.hpp:137 | the upper range check in the chains rejects no pointer |
| HashTables.DoubleKeySound | src/common/hashtbl.hpp:130-143 | ok() is also true for a table that holds a key twice |
| HashTables.HashTable.KeysOnce | src/common/hashtbl.hpp:63-106 | no key is held twice, and no more keys than entries |
| HashLru.KeepsNewest | src/common/hashtbl.hpp:63-106 | for every sequence of uses the table of n entries holds the n keys last used, in order, and no others |
| HashLru.OthersKeepValues | src/common/hashtbl.hpp:63-106 | using one key changes no other key's value, and drops no other key but the oldest when a new one needs room |
| HashLru.UsedValue | src/common/hashtbl.hpp:63-106 | the key used holds what was written, or what it held, or the default value if it is new |
| Features.CompressFeatures | src/common/nnet.cpp:254-275 | compress_features writes the fill values and, in ascending order, the indices of the ones |
| Features.DecompressFeatures | src/common/nnet.cpp:277-298 | decompress_features rebuilds every cell from fill values and ones |
| Features.RoundTrip | src/common/nnet.cpp:254-298 | compressing and decoding gives back the sample exactly if its planes are well formed |
| Features.SendAndDecode | src/common/nnet-ipc.cpp:92-104 | the same for the two methods one after the other, on the arrays |
| FeaturePack.PackBatch | src/common/nnet.cpp:300-340 | pack_batch on a raw batch that fits leaves the layout and returns the four sizes, in both builds |
| FeatureFit.PackFits | src/common/nnet-ocl.cpp:2202-2203 | a batch of samples with at most 864 ones each stays within the 2048 words a sample that are allocated for it |
| FeatureFit.FitsExactly | src/common/nnet-ocl.cpp:2202-2203 | a bound on the ones of a sample is enough for every batch exactly if it is at most 864 |
| FeatureFit.BuildFits | src/common/nnet.hpp:26-32 | maxn_one is such a bound in the build without USE_POLICY2187 and not in the one with it |
| FeatureFit.Overflow | src/common/nnet-ocl.cpp:2202-2203 | a batch of one sample with 865 ones and 1023 moves does not fit |
| FeatureFit.SumFitsExactly | src/common/nnet-ocl.cpp:2202-2203 | with USE_POLICY2187 a bound on ones and moves of each sample together is enough exactly if it is at most 1857 |
| FeaturePack.InBatchCompressed.Add | src/common/nnet.cpp:162-183 | adding a compressed sample extends the gathered fill values, ones and moves by that sample, within the buffers as allocated, and says whether the assertion about the ones held |
| FeaturePack.AssertsHoldExact | src/common/nnet.cpp:174 | the assertion holds at every add of a batch exactly if the ones of the whole batch are at most maxn_one |
| FeatureFit.TwoSamplesFail | src/common/nnet.cpp:174 | two samples with as many ones as allowed each fail it, although the buffers have room for them |
| FeaturePack.InBatchCompressed.ComputePackBatch | src/common/nnet.cpp:185-203 | packing what was gathered, if it fits, leaves the layout and returns the four sizes |
| FeaturePack.PackOneByOne | src/common/nnet.cpp:162-203 | compressing the samples one at a time and packing leaves the same words and returns the same sizes as pack_batch on the raw batch |
| FeatureDecode.TableIsFillCh | src/common/nnet-ocl.cpp:123-132 | the literal table of fill channels lists the channels in the order in which the fill values are written |
| FeatureDecode.SpotUnique | src/common/nnet-ocl.cpp:142-147 | different indices of the batch have different cells on the device |
| FeatureDecode.PlaneFill | src/common/nnet-ocl.cpp:134-140 | plane_fill fills the planes of all fill values and no other cell |
| FeatureDecode.Decode | src/common/nnet-ocl.cpp:120-148 | the three kernels turn a packed batch into its samples, plane by plane, and zeros for the missing ones |
| FeatureDecode.UnpackedSample | src/common/nnet-ocl.cpp:120-148 | a cell of the unpacked batch is that of the sample exactly if the sample is well formed there |
| XzFields.FieldsSplit | src/common/xzi.cpp:223-312 | no field reaches across a delimiter, and nothing else of the two sides matters |
| XzFields.FieldsOfRun | src/common/xzi.cpp:223-312 | a run without delimiters is one field; with XzFields.FieldsSplit this fixes the fields of every stream |
| XzFields.FieldsAreRuns | src/common/xzi.cpp:223-312 | every field is a non-empty run of bytes that are no delimiters |
| XzDecode.Decoder.GetLine | src/common/xzi.cpp:223-312 | one call returns the next field of the stream, cut to the limit, however the decompressor splits its output, and says exactly how the call ends |
| XzDecode.ReadFields | src/common/nnet.cpp:58-101 | successive calls return the maximal runs of the stream in order, each cut to the limit, and the running CRC is fed every byte once, in order |
| WeightDownload.AllBlocks | src/server/listen.cpp:380-383 | the blocks in order are the whole weight |
| WeightDownload.Peer.HandleSend | src/server/listen.cpp:399-440 | one turn sends the length first and then at most as many bytes as the send size leaves |
| WeightDownload.Peer.SendBlock | src/server/listen.cpp:399-440 | however the send size cuts it, the block goes out whole, once, behind its length |
| WeightDownload.Peer.AskBlock | src/server/listen.cpp:497-521 | a request for a block is refused while something is being sent, before any information, and beyond the end; what handle_send asserts of an accepted one holds exactly if the block starts before the end |
| WeightDownload.EndBlock | src/server/listen.cpp:511 | a block starts right at the end exactly if the length is a multiple of the block size and it is the one behind the last, and is empty then |
| WeightClient.AscendingAll | src/autousi/client.cpp:215-228 | as many different block numbers below n as n are all of them, in order |
| WeightClient.Client.FetchMissing | src/autousi/client.cpp:184-213 | only the blocks whose files are missing are asked for; none that was there is lost |
| WeightClient.Client.GetNewWght | src/autousi/client.cpp:133-245 | whatever breaks the session, block files stay blocks of one weight and installed files stay whole weights; with enough time the weight is installed |
| WeightClient.Sessions | src/autousi/client.cpp:133-245 | over any sequence of broken, resumed and restarted sessions and server weights, a file named after a weight number holds exactly that weight |
| RecordArchive.RecKeep.Transact | src/server/datakeep.cpp:582-702 | transact stores a record exactly if it passes the checks and its digest is not held, and keeps pool, archives and table in order |
| RecordArchive.ArchivesAreAll | src/server/datakeep.cpp:676-702 | closed archives followed by the open one hold all stored records in the order of their numbers; each closed one holds a full cluster |
| RecordRuns.AmongNewest | src/server/datakeep.cpp:639-645 | a digest is still held exactly if it was used and fewer different ones than the table has entries were used since |
| RecordRuns.TransactAll | src/server/datakeep.cpp:582-702 | over every run a record is refused as a duplicate exactly if its digest is among the newest that the table has room for; the others that pass are stored, in order |
| ConnLimit.IAddrValue.Connect | src/server/listen.cpp:309-333 | the decision on the ring of the last few times is the decision on the whole history of the address |
| ConnLimit.CrowdedCounts | src/server/listen.cpp:313-330 | the test of one old time says whether so many connections lie less than the span back |
| ConnLimit.WindowBound | src/server/listen.cpp:313-330 | times that pass the test put at most the limit into any window, wherever it starts |
| ConnLimit.AnyWindow | src/server/listen.cpp:309-333 | any one-second window records at most maxconn_sec connections and any sixty-second window at most maxconn_min, and never more than cutconn_min |

## Left out

- Declarations of a win (`is_nyugyoku`), text forms of moves and positions, and `action_interpret`.
- ShogiBoard.Board.ActionOkFull: what is_nyugyoku says is a parameter; where an assertion fails the model stops.
- ShogiNode.Node.TakeAction: asks for legal actions, which stay inside the attack set, so runs fed with other actions that `action_ok_full` accepts, as a client record may hold them, are outside; after such an action the invariant of positions need not hold (a leaping king is one). The same goes for the lemmas on runs in ShogiGame and ShogiStart.
- FeaturePack.PackBatch: asks that the batch fits the buffer, which the source nowhere tests; `FeatureFit` says exactly when it does.
- The random numbers of the Zobrist keys: different positions may have the same key, and repetition is stated about keys, as in the code.
- Winograd: the policy and value heads, softmax and tanh; networks without a residual block; BLAS calls are matrix products; flat buffers have one dimension for each index; rounding.
- WinogradNet.PushBody: asks for at least one residual block, because without one the layer loop of the source reads a layer that is not there.
- Sgemm: the half-precision and tensor-core kernels, measuring times; the padded matrices are two-dimensional arrays; the items of a phase go one after the other, which `SgemmKernel.MovedOnce` and the barriers justify.
- The service: jobs that end, reset or ping it, the quit flag and reloading of weights; a net is a function of one input row; every critical section is one step.
- HashTables: hashing itself; a key carries the unsigned value it is converted to. The references that `operator[]` returns are modelled as an entry number that is used before the next access.
- Features: indices do not wrap around at 32 bits; the half of the words that hold floats and those that hold integers are told apart.
- XzDecode: liblzma is an oracle that emits any chunks and may end in an error; reading the compressed file; the polynomial of the CRC (what is modelled is the sequence of bytes it is fed). Fatal errors other than bad data.
- Weight download: sockets and files are steps that may fail; sends are full, a block file is written whole or not at all, the block size is fixed and positive, a number always means the same weight; removing old weight files; the header of a connection.
- Record keeping: the restart loop that archives clusters left in the pool (src/server/datakeep.cpp:490-529), time stamps, the codec, resign thresholds and logging.
- ConnLimit: counters do not wrap around at 32 bits; the deny list that a cut-off address enters, and addresses that leave the table.
- Sockets, processes, shared memory, signals, logging, options and learning scripts, the engine under src/usi-engine, and `encode_nnmove`: plumbing or easy members.
