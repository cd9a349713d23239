# SCTP conformance tests: a verified model

The repository is a test suite for the kernel's SCTP stack. This project models its three two-process
conformance programs and the runner that schedules test cases, and proves what they promise of every
run.

A conformance program has a sending process, a path that can be filtered, a command protocol in which
a message's length is its tag, and a server loop that folds every delivery into a verdict. The
processes are modelled in the form the C has: classes whose methods update counters and a log of
library calls, with the loops of the source, each proved against a specification function. The stack
between them is an explicit environment, stated once for each program as a step relation. A whole run
is a schedule, a sequence that says which component moves at each step, so a statement about every
schedule is a statement about every interleaving.

| files | content |
|---|---|
| Sequences | facts about finite sequences |
| Server, Verdicts | the shared server loop, the check functions, and what each check decides |
| Scheduler, SchedulerLoop, SchedOrder, ClosedForms | environment: stream schedulers (sections 3.1, 3.2 and 3.4 of RFC 8260) as functions and as a loop over queues, and their transmission orders in closed form |
| NdataCases, NdataClient, NdataScripts, NdataSends | the scheduler program: case table, client, what its calls are and amount to |
| NdataWorld, NdataInvariant, NdataProgress, NdataTheorems, NdataServer, NdataPrograms, NdataSettings | its whole runs |
| SsnChannel | environment: an ordered stream with 16-bit numbers (section 6.5 of RFC 4960) and resets (sections 5.1.2, 5.1.4, 5.2.2 and 5.2.4 of RFC 6525) |
| StrresetClient, StrresetMarks | the reset program: case table, client, and which resets it asks for behind which rules |
| StrresetWorld, StrresetTheorems, StrresetResets, StrresetServer | its whole runs |
| PrClient, PrWorld, PrInvariant, PrTheorems, PrProgress, PrPrograms, PrServer | the partial-reliability program with its two threads; the environment is a bounded send buffer with displacement by priority (section 3.2 of RFC 7496) |
| PrVerdicts, PrReorder | what its verdicts say, and a run that passes without anything given up |
| PrBlocking, PrJoin | which buffers let its cases block, and which let them close behind the filter without the join |
| ForwardTsn | environment: stepping over abandoned messages (sections 3.5 and 3.6 of RFC 3758) |
| Runner, RunnerTheorems | the case runner |

## What is assumed of the stack

- Scheduler program: one message at a time leaves the queues, chosen by the scheduler, never while a
  stream reset is pending; a pending reset completes, and an acknowledgement arrives, only while no
  rule drops incoming packets; delivery is in the order of transmission. The long sleeps before the
  close command end with the queues drained. RFC 8260 leaves the order among equal priorities open;
  the second priority table fixes it to round robin.
- Reset program: a message that was sent arrives sometime, in any order; the sender never has more
  than half the number space outstanding and numbers nothing while a reset is pending; a reset is
  performed when nothing is outstanding. Copies of a message may keep arriving while it lies no more
  than half the number space behind the receiver and no reset has come in between. Whether a request is
  taken, performed or denied, and how many bytes each receive returns, is left open, except that no
  piece is as long as a command. Nothing is assumed of sleeps; "patient" runs are those in which the
  close command is sent only when no other component can move.
- Partial-reliability program: a send blocks until the message fits; while a message of the priority
  policy is blocked, buffered messages of that policy with a larger value may be given up, any of them
  in any order; a message with a lifetime or a limited number of retransmissions may be given up at any
  time; delivery is in any order, and only without a rule. The room a message takes and the size of the
  buffer are parameters. That the environment does give up what a test means to be given up is a
  hypothesis of the theorems that need it, never built in.
- Failing library calls that end a process are outside the runs, except the refused reset of the
  scheduler program.

## Findings

- The order check starts from verdict 0 and only compares: missing messages at the end pass
  (`Verdicts.OrderVerdict`). That none is missing is a property of the whole run.
- The running-total latch never opens again: a duplicate after the last message passes
  (`Verdicts.OverdeliveryPasses`).
- In the reset program nothing but a sleep, or for some rows nothing at all, keeps the close command
  on stream 0 from overtaking the data on stream 1; it is enough that the last message is late, and
  the verdict is then 1 although nothing is lost (`StrresetTheorems.CloseCanOvertake`). The verdict is
  right exactly when everything was read before the close command
  (`StrresetTheorems.VerdictMeansDrained`).
- The check of the A and B cases of the partial-reliability program looks at the latest length only.
  In order of sending it accepts a run in which nothing was given up
  (`PrVerdicts.LastLengthNeverNotices`); in any order it returns 0 exactly when the message that cannot
  be given up came last (`PrVerdicts.LastLengthLooksAtTheLast`).
- The four totals, read out of order, can accept a run in which nothing was given up
  (`PrReorder.NothingGivenUpCanPass`). They return 0 exactly when both large messages are among the
  first four read (`PrVerdicts.FourTotalsExact`).
- A case of the partial-reliability program can block behind its own filter for ever. For every row
  the buffer sizes in which it does not are exact, and in all others no run ever ends
  (`PrBlocking.NeverBlocksIff`): each message must fit alone, and the last two messages of the C
  cases must fit together; the threaded cases need room for four small messages before their thread
  starts.
- The join of the threaded cases is needed: without it the close command can be sent behind the filter,
  in exactly the buffers stated by `PrJoin.ThreadedNeedsJoin`, displacement included.
- The runner's test for a missing `do_test` looks at a word that is never empty, so the function is
  called in any case (`Runner.Runner.DoTest`). A case rejected for its topology leaves its functions
  and the topology's name behind (`RunnerTheorems.RejectedCaseStays`). A case that declares no topology
  is set up with the previous one, but with its own options (`RunnerTheorems.ValidCasesRun`).
- The row labelled fuzz B of the first-come group uses the plain fuzz loop, and the wrap tests of the
  reset program have their filter calls commented out although a row names a drop mode; the model
  follows the code.

## Model

| member | source | states |
|---|---|---|
| Scheduler.DrainIsComplete | testcase/conformance/ndatasched/sctp_ndata.c:102-109 | draining the queues transmits exactly the messages that were waiting: none lost, none invented, for any streams, values and queue lengths |
| Scheduler.DrainLength | testcase/conformance/ndatasched/sctp_ndata.c:102-109 | draining transmits as many messages as were waiting; with completeness, each exactly once |
| Scheduler.FcfsTransmitsInOrderOfArrival | testcase/conformance/ndatasched/sctp_ndata.c:464-472 | first come, first served transmits strictly in the order of acceptance, across all streams |
| Scheduler.DrainFollowsTurns | testcase/conformance/ndatasched/sctp_ndata.c:346-364 | priority and round robin transmit in strictly increasing order of (class value, round within the stream, place in the ring), for arbitrary values and unequal queues; the output is sorted by a total order, so it is determined |
| SchedulerLoop.Association.Pick | testcase/conformance/ndatasched/sctp_ndata.c:346-364 | the pass over the ring finds the first of the streams with the least weight |
| SchedulerLoop.Association.Transmit | testcase/conformance/ndatasched/sctp_ndata.c:346-364 | one in-place transmission is one step of the specification |
| SchedulerLoop.Association.TransmitAll | testcase/conformance/ndatasched/sctp_ndata.c:346-364 | the loop that updates its queues in place sends exactly the specified drain and leaves the queues empty |
| SchedOrder.LoopLoads | testcase/conformance/ndatasched/sctp_ndata.c:102-109 | the nested send loop fills stream s with its messages in order, stamped stream after stream, and puts the streams into the ring in ascending order |
| SchedOrder.DrainInTurns | testcase/conformance/ndatasched/sctp_ndata.c:346-364 | any arrangement of the streams-by-messages grid that is sorted by class, round and stream is what priority or round robin transmits |
| SchedOrder.DrainInOrder | testcase/conformance/ndatasched/sctp_ndata.c:464-472 | any arrangement of the grid sorted by stream and number is what first come, first served transmits |
| ClosedForms.FcfsClosedForm | testcase/conformance/ndatasched/sctp_ndata.c:464-472 | for S streams of K messages, position i carries message i mod K of stream i/K+1 |
| ClosedForms.RoundRobinClosedForm | testcase/conformance/ndatasched/sctp_ndata.c:410-418 | round robin, and priority with one class: position i carries message i/S of stream i mod S + 1, the transpose |
| ClosedForms.FallingValuesClosedForm | testcase/conformance/ndatasched/sctp_ndata.c:346-355 | strictly falling values: position i belongs to stream S - i/K, the blocks in reverse |
| ClosedForms.EqualValuesAreRoundRobin | testcase/conformance/ndatasched/sctp_ndata.c:410-418 | priority with all values equal drains any queues exactly as round robin does |
| ClosedForms.FcfsTable | testcase/conformance/ndatasched/sctp_ndata.c:464-472 | the table of the first-come case is the drained order for three streams of three |
| ClosedForms.RoundRobinTable | testcase/conformance/ndatasched/sctp_ndata.c:410-418 | the table of the round-robin case is the drained order |
| ClosedForms.PriorityTableA | testcase/conformance/ndatasched/sctp_ndata.c:346-355 | the table of the first priority case is the drained order for values that fall with the stream |
| ClosedForms.PriorityTableB | testcase/conformance/ndatasched/sctp_ndata.c:356-365 | the table of the second priority case is the drained order when streams 1 and 2 share a worse value than stream 3 |
| Server.Context.AssertOrder | testcase/conformance/ndatasched/sctp_ndata.c:111-124 | one comparison with the table, in place: the sticky verdict and the index |
| Server.Context.AssertCount | testcase/conformance/ndatasched/sctp_ndata.c:225-237 | the message counter, in place: the clock on the first, the report on the target |
| Server.Context.AssertBytes | testcase/conformance/ndatasched/sctp_ndata.c:251-289 | the byte counter, in place: the first piece only starts the clock |
| Server.Context.CheckFirstThenBoth | testcase/conformance/prsctp/sctp_pr.c:132-151 | the two-total check, in place, with the accumulator that lies past the four declared slots |
| Server.Context.CheckFourTotals | testcase/conformance/prsctp/sctp_pr.c:217-252 | the four-total check, in place; from the fifth message on the verdict stays |
| Server.Context.RunCheck | testcase/conformance/prsctp/sctp_pr.c:703-706 | the call through the case's function pointer does what the case's check function does, whichever it is |
| Server.Context.DoServer | testcase/conformance/ndatasched/sctp_ndata.c:811-843 | for any sequence of receives the loop folds exactly the data messages, acknowledges exactly the commands, and ends exactly on a receive error or the close command, with the verdict of the data before it |
| Server.OneMore | testcase/conformance/strreset/strreset.c:549-565 | one more receive: a command never reaches the check function, data always does |
| Server.ReceivesOneMore | testcase/conformance/ndatasched/sctp_ndata.c:811-843 | one more receive, command or data, takes the state the loop has reached to the next one: counters, acknowledgements and the reason to end |
| Verdicts.OrderVerdict | testcase/conformance/ndatasched/sctp_ndata.c:111-124 | the verdict is 0 if and only if the stream numbers received are a prefix of the table; one wrong stream is never forgiven and a missing tail never noticed |
| Verdicts.OrderVerdictComplete | testcase/conformance/ndatasched/sctp_ndata.c:111-124 | with as many messages as the table has entries, 0 if and only if they equal the table |
| Verdicts.CountReportsOnce | testcase/conformance/ndatasched/sctp_ndata.c:225-237 | the counter starts the clock on the first delivery and reports once, at the delivery that reaches the target, and on no other |
| Verdicts.BytesReportOnce | testcase/conformance/ndatasched/sctp_ndata.c:251-289 | the byte counter adds up what came, starts the clock on the first piece, and reports once if some prefix of two pieces or more adds up to the target, and never otherwise |
| Verdicts.BytesReportOnTheLast | testcase/conformance/ndatasched/sctp_ndata.c:251-289 | under any fragmentation into positive pieces the report comes on the last piece and on no earlier one |
| Verdicts.TallyAddsUp | testcase/conformance/ndatasched/sctp_ndata.c:310-316 | the tally of the fuzz cases is the number of bytes received; it never objects and never reports |
| Verdicts.TotalVerdict | testcase/conformance/strreset/strreset.c:116-124 | the latch is 0 if and only if some prefix of the deliveries hits the target exactly |
| Verdicts.TotalVerdictExact | testcase/conformance/strreset/strreset.c:116-124 | for any split into positive pieces of no more than the target, 0 if and only if every byte arrived |
| Verdicts.OverdeliveryPasses | testcase/conformance/strreset/strreset.c:116-124 | a duplicate after the target has been reached goes unnoticed |
| Verdicts.LastLengthVerdict | testcase/conformance/prsctp/sctp_pr.c:255-265 | the verdict depends on the latest message only, and is 1 without data |
| Verdicts.FirstThenBothVerdict | testcase/conformance/prsctp/sctp_pr.c:132-151 | the verdict in closed form: the sum must be one unit after one message and two units after more |
| Verdicts.FourTotalsVerdict | testcase/conformance/prsctp/sctp_pr.c:217-252 | the verdict depends on the number and the sum of the first four messages and on nothing later |
| Verdicts.FourMeansTwoOfEach | testcase/conformance/prsctp/sctp_pr.c:217-252 | with lengths 1 and 1000, four messages reach 2002 if and only if they are two of each |
| NdataClient.Client.Sweep | testcase/conformance/ndatasched/sctp_ndata.c:102-109 | the nested loop makes the calls in stream-by-stream order |
| NdataClient.Client.SteadyTraffic | testcase/conformance/ndatasched/sctp_ndata.c:190-210 | the three nested loops of the performance tests |
| NdataClient.Client.MixedTraffic | testcase/conformance/ndatasched/sctp_ndata.c:212-223 | ordered and unordered sends by turns |
| NdataClient.Client.FuzzTraffic | testcase/conformance/ndatasched/sctp_ndata.c:292-308 | random lengths, one draw a send |
| NdataClient.Client.SwitchingTraffic | testcase/conformance/ndatasched/sctp_ndata.c:319-338 | the loop that rewrites the case index: which case the context is left on, and every call in between |
| NdataClient.Client.CloseStreams | testcase/conformance/ndatasched/sctp_ndata.c:679-700 | rule first, then the reset; a refused reset removes the rule and ends the process |
| NdataClient.Client.ReopenStreams | testcase/conformance/ndatasched/sctp_ndata.c:702-712 | removes the rules only if the case the context is on now corks |
| NdataClient.Client.DoClient | testcase/conformance/ndatasched/sctp_ndata.c:785-809 | the whole client, for every case, every random sequence and either answer to the reset request, makes exactly the calls of the script |
| NdataScripts.TrafficOnly | testcase/conformance/ndatasched/sctp_ndata.c:190-338 | no send loop of any case produces a length that could be taken for a command or an acknowledgement, whatever the random numbers, nor touches the filter |
| NdataScripts.BracketLeaks | testcase/conformance/ndatasched/sctp_ndata.c:679-712 | a drop rule outlives the bracket if and only if the context moved from a case that corks to one that does not |
| NdataScripts.SwitchingNeverCorked | testcase/conformance/ndatasched/sctp_ndata.c:319-338 | the loop that rewrites the index belongs to cases that do not cork |
| NdataScripts.ClosedWithoutRules | testcase/conformance/ndatasched/sctp_ndata.c:785-809 | no case sends the close command with a drop rule installed, whatever index the loop leaves behind |
| NdataScripts.SweepIsStreamMajor | testcase/conformance/ndatasched/sctp_ndata.c:102-109 | the calls of the nested loop are the stream-major traffic of the closed forms, for any S and K |
| NdataScripts.SteadyCount | testcase/conformance/ndatasched/sctp_ndata.c:190-210 | R sweeps over S streams of C messages of L bytes send R * S * C messages and R * S * C * L bytes, whatever the bounds |
| NdataScripts.MixedCount | testcase/conformance/ndatasched/sctp_ndata.c:212-223 | the mixed loop sends R * S * 2C messages of the same length, whatever the bounds |
| NdataSends.SteadyAt | testcase/conformance/ndatasched/sctp_ndata.c:190-210 | message k of stream s in sweep r of the three nested loops, at place (r S + s) C + k, whatever the bounds R, S and C |
| NdataSends.MixedAt | testcase/conformance/ndatasched/sctp_ndata.c:212-223 | the same for the mixed loop: ordered and unordered by turns |
| NdataSends.FuzzSendsWhatWasDrawn | testcase/conformance/ndatasched/sctp_ndata.c:292-308 | n sweeps make 100 n ordered sends; the one at place k of stream s in sweep r has the length drawn for it, remainder 1500 plus 20 |
| NdataSends.SwitchingSendsWhatWasDrawn | testcase/conformance/ndatasched/sctp_ndata.c:319-338 | the same with one draw more in each round, which chooses the case, and remainder 3000 |
| NdataSends.EveryRowSends | testcase/conformance/ndatasched/sctp_ndata.c:190-338 | every performance and fuzz row, message by message: stream, length and order flag, a hundred a sweep, a million messages where lengths are drawn or mixed |
| NdataSends.CorkedRowsSend | testcase/conformance/ndatasched/sctp_ndata.c:102-109 | every conformance row sends nine ordered messages, three on each of the streams 1 to 3 |
| NdataSends.RefusalEndsTheProcess | testcase/conformance/ndatasched/sctp_ndata.c:679-700 | a refused reset: the calls of the accepted run up to the request, then the rule is removed, and nothing else; neither data nor the close command is sent |
| NdataSends.UncorkedNeverAsks | testcase/conformance/ndatasched/sctp_ndata.c:679-682 | a case that does not cork makes no reset request, so that its calls do not depend on the answer |
| NdataSends.SwitchingReopens | testcase/conformance/ndatasched/sctp_ndata.c:702-712 | after the switching loop the client removes rules exactly if the case drawn last corks, although it installed none |
| NdataScripts.TargetsAreMet | testcase/conformance/ndatasched/sctp_ndata.c:190-289 | each case sends exactly the number of messages, or bytes, or the nine table entries, its check function waits for |
| NdataInvariant.StepKeepsInvariant | testcase/conformance/ndatasched/sctp_ndata.c:785-843 | every step of client, scheduler, path and server keeps the invariant: per stream, delivered then in flight then queued is what was sent; one command outstanding; rules as the calls left them |
| NdataInvariant.EveryRunKeepsInvariant | testcase/conformance/ndatasched/sctp_ndata.c:785-843 | every schedule of any length keeps, from the initial state on, the invariant of the whole scheduler program |
| NdataServer.EveryRunServes | testcase/conformance/ndatasched/sctp_ndata.c:811-843 | in every run the server is where its loop is after everything it received, commands included: counters, verdict, acknowledgements, and an exit exactly on the close command |
| NdataProgress.EnabledStepsCount | testcase/conformance/ndatasched/sctp_ndata.c:785-843 | every step that can be taken reduces the work left |
| NdataProgress.StuckIsFinal | testcase/conformance/ndatasched/sctp_ndata.c:785-843 | when no one can move, the run is over |
| NdataTheorems.ExitMeansComplete | testcase/conformance/ndatasched/sctp_ndata.c:785-843 | in every interleaving the server that exits has consumed, on every stream, exactly what was sent there, in order, and its counters are the fold over that |
| NdataTheorems.RunsEndWell | testcase/conformance/ndatasched/sctp_ndata.c:785-843 | a run that cannot go on has reached the end of the script with the server exited and nothing queued, in flight or filtered |
| NdataTheorems.MovesAreBounded | testcase/conformance/ndatasched/sctp_ndata.c:785-843 | no schedule has more than so many effective steps |
| NdataTheorems.EveryRunCanFinish | testcase/conformance/ndatasched/sctp_ndata.c:785-843 | from wherever a schedule has led, some continuation lets the server exit |
| NdataTheorems.CorkedRunDrains | testcase/conformance/ndatasched/sctp_ndata.c:679-712 | whatever is sent under the cork, in every interleaving the exited server has received exactly what the scheduler drains from the filled queues, in that order |
| NdataTheorems.CorkedRunFollowsTurns | testcase/conformance/ndatasched/sctp_ndata.c:346-364 | under the cork, for any number of streams, any values and any sends, in every interleaving: priority and round robin reach the server sorted by class, round within the stream and place in the ring |
| NdataTheorems.CorkedRunFollowsArrival | testcase/conformance/ndatasched/sctp_ndata.c:464-472 | likewise, first come, first served reaches the server in the order of acceptance, across all streams |
| NdataTheorems.CorkedVerdict | testcase/conformance/ndatasched/sctp_ndata.c:111-124 | whatever is sent under the cork, the verdict of an exited server is 0 if and only if the drained order of stream numbers is a prefix of the table |
| NdataPrograms.ScriptIsClient | testcase/conformance/ndatasched/sctp_ndata.c:785-809 | the script of the whole-run theorems is the client's call sequence |
| NdataPrograms.PlansAreGood | testcase/conformance/ndatasched/sctp_ndata.c:346-536 | every row of the case table meets what the whole-run theorems ask of a script |
| NdataPrograms.CorkedSettings | testcase/conformance/ndatasched/sctp_ndata.c:73-156 | what the setup loops leave in the association: 10-s and (10-s)/8+8 give the values the two priority tables need |
| NdataSettings.SetupSets | testcase/conformance/ndatasched/sctp_ndata.c:73-188 | setting a row up chooses its scheduler and gives its streams their values, 10 - s, or 9, 9, 8, and leaves the others as they were |
| NdataSettings.SettingsFollowTheCalls | testcase/conformance/ndatasched/sctp_ndata.c:785-809 | in every run of any script the scheduler and the values in force are those the calls set last |
| NdataSettings.RowsStaySetUp | testcase/conformance/ndatasched/sctp_ndata.c:346-536 | every row but the switching ones, every run: from the end of the setup on its scheduler and its values are in force |
| NdataSettings.SwitchingRunsAreSetUp | testcase/conformance/ndatasched/sctp_ndata.c:319-338 | the switching rows, every run: when one of the messages of round r is about to be sent, the association is set for the case drawn in that round |
| NdataPrograms.FcfsGridRun | testcase/conformance/ndatasched/sctp_ndata.c:102-124 | for any S streams of any K messages in an association that has them, in every interleaving, position i of what the server received is stream i/K+1 |
| NdataPrograms.RoundRobinGridRun | testcase/conformance/ndatasched/sctp_ndata.c:102-124 | round robin, any S and any K, every interleaving: position i of what the server received is stream i mod S + 1 |
| NdataPrograms.FallingGridRun | testcase/conformance/ndatasched/sctp_ndata.c:102-124 | falling values, any S and any K, every interleaving: position i of what the server received is stream S - i/K |
| NdataPrograms.ConformanceCasesPass | testcase/conformance/ndatasched/sctp_ndata.c:346-472 | each of the four conformance cases, in every interleaving: received streams equal the table and the server returns 0 |
| NdataPrograms.CompleteTotals | testcase/conformance/ndatasched/sctp_ndata.c:190-289 | bytes and messages consumed equal those sent, however the streams were interleaved |
| NdataPrograms.EveryCasePasses | testcase/conformance/ndatasched/sctp_ndata.c:346-536 | all 21 cases, any random sequence, any number of streams from the ten of the source up, any interleaving, messages received whole: the server that exits received everything, returns 0, and holds the number of messages or bytes sent and the moment of the first; a performance case has made its one report |
| NdataPrograms.PiecesReportOnTheLast | testcase/conformance/ndatasched/sctp_ndata.c:251-289 | each byte-counting case: however the bytes it sends are cut into two pieces or more, the report comes on the last piece and on no earlier one |
| NdataPrograms.RunInPiecesReportsOnce | testcase/conformance/ndatasched/sctp_ndata.c:251-289 | the same for the bytes any finished run has brought to the server, cut anew |
| SsnChannel.HalfIsTheLimit | testcase/conformance/strreset/strreset.c:84-99 | the receiver mistakes none of the next w messages for an old one, wherever it stands, if and only if w is at most half the 16-bit number space |
| SsnChannel.ExpectedIsNext | testcase/conformance/strreset/strreset.c:84-99 | among everything outstanding the expected number names the next message and no other, at any distance from a wrap or a reset |
| SsnChannel.StepKeeps | testcase/conformance/strreset/strreset.c:84-114 | every step of sending, reordering, resetting and refusing keeps: what was delivered is 0, 1, 2, ..., and everything sent after it is in flight or held under its own number |
| SsnChannel.NothingDropped | testcase/conformance/strreset/strreset.c:84-114 | the receiver never throws a message away as old |
| SsnChannel.CopyIsIgnored | testcase/conformance/strreset/strreset.c:84-99 | another copy of a message that has arrived, up to half the number space behind or waiting ahead, changes nothing: the receiver, who sees the number only, takes it for an old one or already holds it |
| SsnChannel.OutstandingMoves | testcase/conformance/strreset/strreset.c:84-114 | with nothing in flight and something outstanding, the held message that is due can be handed over |
| StrresetClient.Client.SendRun | testcase/conformance/strreset/strreset.c:89-91 | the send loop |
| StrresetClient.Client.TestWrap | testcase/conformance/strreset/strreset.c:84-114 | seventy thousand sends, a reset, one more: the calls, for any count and either reset |
| StrresetClient.Client.CloseStreams | testcase/conformance/strreset/strreset.c:409-425 | which rule is installed, by the row's drop mode |
| StrresetClient.Client.DoClient | testcase/conformance/strreset/strreset.c:511-532 | the whole client makes exactly the calls of its script, for every row |
| StrresetClient.CasesMeetTheirTargets | testcase/conformance/strreset/strreset.c:208-266 | every row sends exactly the bytes its check function waits for, the target fits a signed 32-bit integer, no length looks like a command, and no rule is left at the end |
| StrresetClient.WrapShape | testcase/conformance/strreset/strreset.c:84-114 | for any count the wrap tests send count + 1 messages and never touch the filter, although their row names a drop mode |
| StrresetClient.TwiceShape | testcase/conformance/strreset/strreset.c:127-142 | count + 1 messages, no rule left, in any drop mode |
| StrresetClient.ThriceShape | testcase/conformance/strreset/strreset.c:144-161 | count + 1 messages, no rule left, in any drop mode |
| StrresetClient.BehindShape | testcase/conformance/strreset/strreset.c:163-185 | count + 4 messages, no rule left, in any drop mode |
| StrresetMarks.WrapMarks | testcase/conformance/strreset/strreset.c:84-114 | the wrap tests ask for one reset, of the kind they are named after, when exactly the loop has run and without a rule, and send one message after it |
| StrresetMarks.TwiceMarks | testcase/conformance/strreset/strreset.c:127-142 | the rule of the drop mode first, two stream resets behind it after count messages, one more message, then the rule goes |
| StrresetMarks.ThriceMarks | testcase/conformance/strreset/strreset.c:144-161 | the rule first, two association resets behind it, a third after it has gone, all after count messages |
| StrresetMarks.BehindMarks | testcase/conformance/strreset/strreset.c:163-185 | count messages, the rule, one association reset behind it, four messages behind it, then the rule goes |
| StrresetMarks.EveryRowMarks | testcase/conformance/strreset/strreset.c:208-266 | row by row the complete list of requests and rules, each with the number of messages before it and the filter in force |
| StrresetMarks.EveryRequest | testcase/conformance/strreset/strreset.c:208-266 | at every reset request of a row: its kind, the messages sent so far, and the filter: none, DATA chunks only, or everything |
| StrresetMarks.EveryRowAsks | testcase/conformance/strreset/strreset.c:208-266 | which resets a row asks for, in order: one, two stream resets, three association resets, one |
| StrresetTheorems.StepKeepsInvariant | testcase/conformance/strreset/strreset.c:511-568 | every step keeps: channel in order, bytes conserved between association, socket and counter, filter as the calls left it, one command outstanding |
| StrresetTheorems.EveryRunKeepsInvariant | testcase/conformance/strreset/strreset.c:511-568 | every schedule keeps, from the initial state on, the invariant of the whole reset program |
| StrresetServer.EveryRunServes | testcase/conformance/strreset/strreset.c:534-568 | the same for the reset program, whatever pieces the receives return |
| StrresetTheorems.ExactlyOnceInOrder | testcase/conformance/strreset/strreset.c:84-114 | for any number of messages, any reset points and any answers to them, any delays: messages are handed over once each in the order of sending, and every byte of them is counted or still unread |
| StrresetTheorems.CopiesChangeNothing | testcase/conformance/strreset/strreset.c:84-114 | copies, however many, leave the whole program as it is |
| StrresetTheorems.VerdictMeansDrained | testcase/conformance/strreset/strreset.c:116-124 | at every moment of every run the verdict is 0 if and only if all messages have been handed over and read, in whatever pieces |
| StrresetTheorems.ClosedWithoutRules | testcase/conformance/strreset/strreset.c:409-437 | the close command is sent with no rule installed |
| StrresetTheorems.WaitingEnds | testcase/conformance/strreset/strreset.c:440-466 | while the client waits for an acknowledgement, the command or its answer can move |
| StrresetTheorems.StuckIsFinal | testcase/conformance/strreset/strreset.c:511-568 | when no one can move, the client has finished, the server has exited and all messages were handed over in order |
| StrresetTheorems.EnabledStepsCount | testcase/conformance/strreset/strreset.c:511-568 | every step that can be taken reduces the work left |
| StrresetTheorems.MovesAreBounded | testcase/conformance/strreset/strreset.c:511-568 | no schedule has more than so many effective steps, copies that arrive again apart |
| StrresetTheorems.PatientRunsPass | testcase/conformance/strreset/strreset.c:127-205 | if the client closes only when nothing else can move, every run in which the server exits returns 0: refused, pending and repeated resets lose and duplicate nothing |
| StrresetTheorems.CloseCanOvertake | testcase/conformance/strreset/strreset.c:511-568 | nothing else protects the verdict: for every script that sends anything, some schedule has every message but the last delivered and read, the last alone in flight, and the close command overtaking it; the server returns 1 |
| StrresetTheorems.PlansAreGood | testcase/conformance/strreset/strreset.c:208-266 | every row meets what the whole-run theorems ask, with its own check function |
| StrresetTheorems.EveryCase | testcase/conformance/strreset/strreset.c:208-266 | for each row and each schedule: in order and at most once, verdict 0 exactly when everything was read, 0 for a patient client, and everything handed over when no one can move |
| StrresetResets.PerformedAtOnceIff | testcase/conformance/strreset/strreset.c:49-79 | the first request of any script can be performed before the next call, in some run, if and only if it is not made behind the rule on all packets |
| StrresetResets.AskedThenPerformed | testcase/conformance/strreset/strreset.c:49-79 | any request of any script is performed in some run at any later call where that rule is not in force |
| StrresetResets.PerformedWhenDrained | testcase/conformance/strreset/strreset.c:84-114 | a request made without a rule is performed, in some run, when exactly the messages sent before it have been delivered and read |
| StrresetResets.NoRowResetsBehindAll | testcase/conformance/strreset/strreset.c:163-185 | in no run of any row is a reset performed while all packets are held back |
| StrresetResets.LastRowWaits | testcase/conformance/strreset/strreset.c:163-185 | the request of the last row is pending behind that rule, in some run, with the ten messages before it delivered |
| StrresetResets.RowResetsAtOnceIff | testcase/conformance/strreset/strreset.c:208-266 | the first request of a row can be performed at once in every row but the last |
| StrresetResets.EveryRowCanReset | testcase/conformance/strreset/strreset.c:208-266 | every row has a run that performs its reset, with all that was transmitted delivered and read: 70000 messages without a rule, none behind the rule on DATA chunks, ten once the rule on all packets is gone |
| PrClient.Client.Cleanup | testcase/conformance/prsctp/sctp_pr.c:153-159 | the cleaning thread's calls |
| PrClient.Client.DoClient | testcase/conformance/prsctp/sctp_pr.c:654-675 | the whole client makes exactly the calls of its script, for every row |
| PrInvariant.StepKeepsInvariant | testcase/conformance/prsctp/sctp_pr.c:653-711 | every step of both threads, the buffer, the path and the server keeps: each message in one place, losses justified, buffer within its size, filter as both threads left it, one command outstanding |
| PrInvariant.EveryRunKeepsInvariant | testcase/conformance/prsctp/sctp_pr.c:653-711 | every schedule of the two threads keeps, from the initial state on, the invariant of the whole program |
| PrServer.EveryRunServes | testcase/conformance/prsctp/sctp_pr.c:677-711 | the same for the partial-reliability program |
| PrTheorems.BufferNeverOverfull | testcase/conformance/prsctp/sctp_pr.c:641-651 | in every run the messages buffered take no more than the send buffer has |
| PrTheorems.OnePlaceEach | testcase/conformance/prsctp/sctp_pr.c:161-187 | every message accepted is buffered, delivered or given up, in exactly one of these, once |
| PrTheorems.LossesAreJustified | testcase/conformance/prsctp/sctp_pr.c:161-187 | a message is given up only for its own limit, or for a later one of the priority policy with a strictly smaller value |
| PrTheorems.SmallestSurvive | testcase/conformance/prsctp/sctp_pr.c:161-187 | no message of the smallest value is ever given up |
| PrTheorems.EveryRunConservesBytes | testcase/conformance/prsctp/sctp_pr.c:161-187 | bytes buffered, delivered and given up add up to the bytes accepted |
| PrTheorems.ClosedWithoutRules | testcase/conformance/prsctp/sctp_pr.c:546-569 | the close command is sent with no rule installed, whichever thread removed it |
| PrTheorems.InOrderRunsQueue | testcase/conformance/prsctp/sctp_pr.c:161-187 | when the path takes messages from the front, what was read, waits at the socket and waits in the buffer is in the order of sending |
| PrProgress.EnabledStepsCount | testcase/conformance/prsctp/sctp_pr.c:153-215 | every step of either thread, the buffer, the path or the server reduces the work left |
| PrProgress.MovesAreBounded | testcase/conformance/prsctp/sctp_pr.c:153-215 | no schedule has more than so many effective steps |
| PrProgress.SendGetsThrough | testcase/conformance/prsctp/sctp_pr.c:161-187 | a blocked send gets room by deliveries, by displacement, by a limit running out, or by the cleaning thread |
| PrProgress.StuckIsFinal | testcase/conformance/prsctp/sctp_pr.c:153-215 | no reachable state has both threads unable to move before the end: when no one can move, both have finished, the join has returned and the server has exited |
| PrProgress.PatientRunsSettle | testcase/conformance/prsctp/sctp_pr.c:671-672 | a client that closes only when nothing else can move leaves every message read or given up |
| PrPrograms.CasesFit | testcase/conformance/prsctp/sctp_pr.c:289-390 | each row meets what the whole-run theorems ask; its sends find room beside what cannot leave in exactly the buffer sizes stated for its test |
| PrPrograms.NoCaseGetsStuck | testcase/conformance/prsctp/sctp_pr.c:289-390 | in those sizes no schedule of any case gets stuck, and every schedule has a bounded number of effective steps |
| PrBlocking.EveryRunIsPressed | testcase/conformance/prsctp/sctp_pr.c:91-130 | in every run a message is displaced only if everything up to the one that displaced it does not fit the buffer together |
| PrBlocking.Crowded | testcase/conformance/prsctp/sctp_pr.c:91-215 | a send is never taken, in any run, if what stays buffered behind the filter leaves no room for it |
| PrBlocking.NeverBlocksIff | testcase/conformance/prsctp/sctp_pr.c:289-390 | for every row the stated buffer sizes are exact: in them a run stops only at its end, and only in them does any run end |
| PrJoin.JoinIsNeeded | testcase/conformance/prsctp/sctp_pr.c:183-184 | any script that leaves its rules to the other thread, does not join it and finds room by displacing has a run that sends the close command behind the filter |
| PrJoin.ThreadedNeedsJoin | testcase/conformance/prsctp/sctp_pr.c:161-215 | the two threaded cases with the join left out: some run sends the close command behind the filter if and only if the four small messages of the first part fit the send buffer together and so do the four messages of the smaller value |
| PrVerdicts.OnlyLosable | testcase/conformance/prsctp/sctp_pr.c:289-390 | which messages of each case can be given up at all, for whatever reason |
| PrVerdicts.LossesOf | testcase/conformance/prsctp/sctp_pr.c:289-390 | after a run each message was read or given up, once, and the messages given up are among those that can be |
| PrVerdicts.FirstThenBothNotices | testcase/conformance/prsctp/sctp_pr.c:267-286 | the checks of the C cases return 0 if and only if the message meant to be given up was, in any order of delivery |
| PrVerdicts.GivenUpPasses | testcase/conformance/prsctp/sctp_pr.c:217-286 | once everything meant to be given up was, every case returns 0, in any order of delivery |
| PrVerdicts.LastLengthLooksAtTheLast | testcase/conformance/prsctp/sctp_pr.c:255-265 | the check of the A and B cases returns 0 if and only if the message that cannot be given up came last |
| PrVerdicts.LastLengthNeverNotices | testcase/conformance/prsctp/sctp_pr.c:255-265 | in order of sending the check of the A and B cases returns 0 whatever was or was not given up |
| PrVerdicts.FourTotalsNotices | testcase/conformance/prsctp/sctp_pr.c:217-252 | in order of sending the four totals return 0 if and only if all three messages of the larger value were given up |
| PrVerdicts.FourTotalsExact | testcase/conformance/prsctp/sctp_pr.c:217-252 | in any order of delivery the four totals return 0 if and only if both large messages are among the first four that are read |
| PrReorder.NothingGivenUpCanPass | testcase/conformance/prsctp/sctp_pr.c:217-252 | either threaded case, in a buffer that takes all seven messages, has a run of a patient client that gives nothing up and returns 0: the large messages arrive first |
| PrVerdicts.FourRunningTotals | testcase/conformance/prsctp/sctp_pr.c:161-252 | with all three given up, in order, messages 1, 4, 5, 6 arrive and the running totals are 1, 2, 1002, 2002 |
| PrVerdicts.VerdictOfEveryCase | testcase/conformance/prsctp/sctp_pr.c:289-390 | each row, each schedule of a client that closes only when nothing else can move: only the messages meant to be given up are; if all are, 0; with two totals, 0 only then; with four totals, 0 exactly if both large messages were among the first four read, which in order of sending is the same; with the latest length, always 0 in order of sending |
| ForwardTsn.SkipKeeps | testcase/conformance/prsctp/sctp_pr.c:79-89 | stepping a stream over numbers given up hands over, in order, whatever waits below them, and loses nothing |
| ForwardTsn.StepKeeps | testcase/conformance/prsctp/sctp_pr.c:55-89 | arrivals, releases, acknowledgements and forward chunks, delayed or repeated, keep the receiver's invariant |
| ForwardTsn.OnlyTheRestInOrder | testcase/conformance/prsctp/sctp_pr.c:55-89 | in every run, for any mix of ordered and unordered messages on any streams and any subset given up: nothing given up and nothing twice is handed over, ordered ones in their stream's order |
| ForwardTsn.QuietMeansDelivered | testcase/conformance/prsctp/sctp_pr.c:55-89 | when nothing can happen any more exactly the rest has been handed over, none stuck behind a message given up |
| ForwardTsn.MovesAreBounded | testcase/conformance/prsctp/sctp_pr.c:55-89 | no run has more than four effective steps a message |
| Runner.Runner.TopoValidate | sctp-tests:24-39 | loads the named topology's functions, keeps the old ones when none is named, fails when it does not exist |
| Runner.Runner.CaseValidate | sctp-tests:41-66 | what sourcing a case leaves in the shell, and when it fails |
| Runner.Runner.DoSetup | sctp-tests:128-134 | topology first, then the case, each only if defined |
| Runner.Runner.DoTest | sctp-tests:136-145 | calls the function whether or not it is defined: the guard tests a word that is never empty |
| Runner.Runner.DoClean | sctp-tests:147-156 | the case first, then the topology; unsets everything but the topology's functions |
| Runner.Runner.CaseSchedule | sctp-tests:103-118 | the loop over any list of cases, from any shell |
| RunnerTheorems.ValidCasesRun | sctp-tests:94-118 | a list of valid cases runs each case's own functions inside the topology in force, one case after the other, in closed form |
| RunnerTheorems.SucceedsIffAllValid | sctp-tests:103-118 | the schedule goes through if and only if every file exists and names no topology or an existing one |
| RunnerTheorems.StopsAtTheFirst | sctp-tests:103-118 | a schedule with an invalid case has run exactly the cases before the first invalid one and stays in that case's directory; a missing file changes nothing else |
| RunnerTheorems.InForceIsLatest | sctp-tests:147-156 | the topology in force is that of the latest case at or before this one that declared one, however long ago |
| RunnerTheorems.NothingSurvives | sctp-tests:147-156 | after a completed case no case function, topology name or option is left |
| RunnerTheorems.RejectedCaseStays | sctp-tests:41-66 | after a case rejected for its topology its name, functions, options and topology name stay, and the topology loaded before stays loaded |
| RunnerTheorems.TopologiesAlternate | sctp-tests:94-156 | for any list, also an aborted one, topology setups and clean-ups alternate strictly, each clean-up with the topology and options of its setup, and none is left up |

## Left out

- The kernel's SCTP implementation, congestion control, retransmission timers, path failover and socket buffer accounting: replaced by the step relations above; nothing is claimed about the kernel.
- Sockets, address resolution, event subscription, printing, `system()` as anything but installing and removing rules, and real time.
- Failing calls that end a process with exit(-1), except the refused reset request of the scheduler program.
- The data layout behind `cb[4]`, an index past the four declared slots: it is a fifth slot of the array here.
- Rows of the case tables past the initialised ones, which are all zero: 12 of 19 in the reset program, 8 of 19 in the partial-reliability program.
- Server.Context.DoServer: requires that no more data comes than the order table has entries, because the source reads past its nine entries without a check.
- NdataPrograms.EveryCasePasses: takes the receiving host's clock to be past the epoch, because the byte counter uses 0 for a clock that has not been read; receives in pieces are the subject of `NdataPrograms.PiecesReportOnTheLast`.
- StrresetTheorems.PatientRunsPass: a hypothesis on when the client closes stands for the sleeps of the source, because `StrresetTheorems.CloseCanOvertake` shows that the claim fails without it.
- PrVerdicts.VerdictOfEveryCase: the same hypothesis stands for the five seconds before the close command.
- PrPrograms.NoCaseGetsStuck: the buffer sizes are a hypothesis, and `PrBlocking.NeverBlocksIff` shows that they are exact.
- StrresetMarks.EveryRowMarks: sleeps between the calls are not marked, because nothing is assumed of a sleep.
- StrresetResets.EveryRowCanReset: in rows 4 and 5 nothing has been transmitted when the reset is performed behind the rule on DATA chunks, because nothing transmitted could arrive there and a reset is performed only with nothing outstanding.
- PrReorder.NothingGivenUpCanPass: gives the run for buffers that take all seven messages; `PrVerdicts.FourTotalsExact` is for every buffer.
- ForwardTsn.OnlyTheRestInOrder: numbers within a stream are unbounded, and messages are given up before the path opens; the wrap of 16-bit numbers is the subject of `SsnChannel`.
- SsnChannel.CopyIsIgnored: copies that are more than half the number space late, or that arrive after a reset, are excluded; telling them apart is the work of transmission sequence numbers.
- SsnChannel.StepKeeps: an association reset also renumbers the transmission sequence; only the stream numbers are modelled.
- What the hooks of a case do to the shell, shell variables named like the hooks, and topology files that define only one of their two functions.
- Topology scripts, logging, option parsing, ssh and package setup, netperf statistics, the stress scripts, and the single-purpose kernel regression triggers: shallow properties only.
