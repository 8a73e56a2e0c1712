# A verified model of the store-and-forward tree

The framework connects nodes into a tree. A node sends opaque envelopes up to its parent, with an in-memory retry
queue for those that could not be sent, and down to its children, through one bounded channel a child, over
connections that reopen themselves. This project models that core and proves what it keeps under every interleaving
of its goroutines.

It has two layers.

**State machines.** A machine has a state, a set of actions, and a total `Next`: an action whose guard fails changes
nothing, so that `Exec` of any sequence of actions is an interleaving, and a lemma about `Exec(run)` is about every
reachable state. An action is one region under a mutex, one channel operation, one stream operation, one dial or one
`go` statement.

| machine | files | what it covers |
|---|---|---|
| upstream, over any finite forest of nodes | `Topology`, `Tokens`, `Upstream`, `UpstreamConservation`, `UpstreamProgress`, `UpstreamDelivery`, `UpstreamCalls` | `SendUp`, forwarding, the queue, retryLoop, links that lose |
| downstream, over any finite forest of nodes | `Downstream`, `DownstreamInvariant`, `DownstreamReach`, `DownstreamProgress` | `SendDown`, `SendToChild`, re-broadcast, disconnects |
| registry of one server | `Registry`, `RegistryMailboxes`, `RegistryBroadcasts`, `RegistryKeys`, `RegistryCounters` | keys, channels, broadcasts child by child with handlers popping meanwhile |
| policy and registry together | `Policy`, `Rejections`, `Admission` | the allow list, the check, the pending map, registration |
| connections of one client | `ClientMachine`, `ClientOwnership`, `ClientClose`, `ClientSends`, `ClientStreams`, `ClientRefinement`, `ClientRecovery` | `Connect`, reopening, reconnectLoop, sendUpstream, recvLoop, `Close` |

**Objects.** `PendingQueue.Queue` (with Go's slices written out as a backing array and a length),
`TransportServer.Server`, `TransportClient.Client`, `Policy.AllowList` and `FrameworkNode.Node` are the classes of the
program with their fields and methods. `Server` and `Client` each carry, as history, a run of their machine that their
fields are the outcome of, and every call extends it; so what holds of the machine after every run holds of the object
after any sequence of calls. `UpstreamCalls` shows that a whole `SendUp` and a whole retry pass of the node, which
`Retry` and `RetryLoop` specify, are runs of the upstream machine with the same effect.

What the program gets from outside is a parameter: whether a dial, an open, a Send or a Recv succeeds, what the clock
reads, what the approval hook answers, what other goroutines do meanwhile.

Four results deserve a warning, since they say that a plausible property is false, and exactly when it is true:

- A child that claims an id of synthetic shape can lose its registry entry. `RegistryKeys.SafeIffNoClash` says for
  exactly which sets of claimed ids that can happen; `"(anonymous-1)"` beside a child without an id is the smallest.
  With the allow list installed the condition is `Admission.SafeIffNoClash`.
- A connection can be open after `Close`: `ClientClose.LateInstallStaysOpen` is a run. `ClientClose.NothingOpenIff` says
  that `Close` leaves nothing open on a side iff no reopen of that side is past its check of `closed` when it runs, and
  `AfterClose` that in any case at most one connection a side stays.
- An envelope can be stuck below its root although no link has lost it: retryLoop returns when its context is done,
  and what fails to be sent after that is queued for good. `UpstreamProgress.CanArriveIffNotStuck` says exactly which
  envelopes can still arrive if a Send may succeed at any node. But the context is also the one the client's streams are
  opened with (node/node.go:101, transport/client.go:150); `UpstreamDelivery.ArrivesIffClear` says exactly which can
  when no Send succeeds where the context is done.
- Two envelopes of different nodes can have the same id if a clock reads before 1970; `Naming.EnvelopeIdCollision`
  says exactly when.

The comment at node/node.go:185-187 says that `SendToChild` does not propagate below the child. The code at
node/node.go:225-233 re-broadcasts whatever a node receives, and the model follows the code:
`DownstreamProgress.TargetedReachesSubtree` gives, for every tree and child, a run in which the whole subtree of that
child runs its handlers, `StaysIffChildless` says that the comment holds of exactly the children without children of their
own, and `DownstreamReach.SiblingsGetNothing` says that nothing outside it ever does.

Check everything with `dafny verify dfyconfig.toml`.

## Model

| member | source | states |
|---|---|---|
| Upstream.Frontier | node/node.go:205-267 | in every reachable state each event has exactly one copy, at a node on the path from its origin to the root, and the nodes that have run their handlers for it are exactly those from the origin to that copy, once each |
| Upstream.AtMostOnce | node/node.go:205-242 | no node runs its handlers twice for an event, and only the origin and its ancestors run them |
| Upstream.AbsorbedWasSeenByAll | node/node.go:258-261 | an event at rest at a root was handled once by every node on its path and by no other |
| Upstream.RunKeepsInv | node/node.go:205-310 | every interleaving keeps the invariant behind these |
| UpstreamConservation.Conservation | node/node.go:258-310 | in every reachable state, as multisets, what a node took on for forwarding is what SendUpstream succeeded for, plus what forwarders hold, plus the queue, plus the unattempted batch, plus the tail abandoned on cancel; nothing is abandoned while the context is live |
| UpstreamConservation.RunKeepsLoopInv | node/node.go:283-310 | the batch is non-empty exactly while retryLoop works on it, holds at most one envelope awaiting re-push, and is abandoned only after cancel |
| UpstreamDelivery.ArrivesIffClear | node/node.go:205-310 | in every reachable state, when no send succeeds at a node whose context is done, an event can still come to rest at a root iff it is not lost and no node that it has yet to be sent from has a done context |
| UpstreamDelivery.AllClearArrive | node/node.go:205-310 | one continuation takes all of those events to their roots at once, with links in order, each node done with one envelope before it takes the next, and no failure but of sends that a done context ends |
| UpstreamDelivery.BlockedForever | node/node.go:290-306 | an event that is lost, or has a node with a done context before it, stays so |
| UpstreamProgress.CanArriveIffNotStuck | node/node.go:205-310 | in every reachable state, when a send may succeed at any node, an event can still come to rest at a root iff it is not lost, not abandoned, and not failed or queued at a node whose retryLoop has returned |
| UpstreamProgress.NothingIsStranded | node/node.go:205-310 | the continuation that takes such an event to a root |
| UpstreamProgress.StuckForever | node/node.go:290-306 | an event that is stuck stays stuck in every continuation |
| UpstreamProgress.AnyLinkMayLose | transport/client.go:309-318 | from every reachable state, an envelope on a link can be lost, and then never comes to a root: acceptance by Send is not delivery |
| UpstreamCalls.FailsAfterTheLoop | node/node.go:258-267 | at any node whose retryLoop has returned, a SendUp that cannot be sent ends in the queue and is stuck there |
| UpstreamCalls.SendUpRuns | node/node.go:205-267 | a whole SendUp runs the handlers once and leaves the envelope on the link, at the end of the queue, or absorbed, as SendUpstream answers, and every other buffer as it was |
| UpstreamCalls.RetryPassRuns | node/node.go:292-307 | a retry pass, whatever its sends answer, whatever waiting forwarders push during it and wherever it finds the context done, is a run of the machine that leaves the queue, the link and the abandoned tail as the method does, in order |
| Topology.PathDescends | node/node.go:211-219 | the path up from a node visits no node twice |
| Topology.PathClimbs | node/node.go:211-219 | each node of a path is followed by its parent, and the path ends only at a root |
| PendingQueue.Queue.Push | node/pending.go:22-26 | appends one envelope at the end, and writes to no array but the queue's own |
| PendingQueue.Queue.Drain | node/pending.go:28-34 | hands over the slice with all its contents and leaves the queue empty with no array in common with it |
| Retry.RetryOne | node/node.go:298-301 | a failed envelope is pushed back after what others pushed, a successful one is not |
| Retry.PassInterleaves | node/node.go:292-307 | the queue after a pass merges the failures, in their order, with what others pushed, in theirs |
| Retry.BatchInterleaves | node/node.go:298-301 | successes and failures, each in order, make up the batch |
| Retry.PassConserves | node/node.go:292-307 | as multisets, batch and concurrent pushes are what was sent, what is queued and what was left unattempted |
| Retry.Backlog | node/node.go:292-307 | the queue's length after a pass is its failures plus the pushes during it |
| Retry.QuietPass | node/node.go:292-307 | with no concurrent push the queue is exactly the failures in original order, so never longer than the batch |
| Retry.NoFailures | node/node.go:298-301 | a pass fails nothing iff each of its sends succeeded, so such a quiet pass empties the queue |
| Retry.EachByItsAnswer | node/node.go:298-301 | for distinct envelopes, the i-th is sent iff the i-th Send succeeded and fails iff it did not, and no other attempt has a say |
| Retry.PushedIsOthers | node/node.go:298-301 | what others push during a pass is, in order, all they were given to push up to the last attempt |
| Retry.PassGoesOn | node/node.go:302-306 | a pass is over after its batch or right after the first attempt that finds the context done, and no earlier |
| RetryLoop.LoopConserves | node/node.go:283-310 | over its whole life, as multisets, what was queued at the start or pushed since was sent, is queued, or was abandoned |
| RetryLoop.AbandonsOnlyWhenDone | node/node.go:302-306 | it abandons something only at one pass, which found the context done; what it abandons is the rest of that pass's batch, and it sends and queues nothing after it |
| RetryLoop.QuietLoop | node/node.go:283-310 | retrying alone never makes the queue longer, over any number of passes |
| Naming.EnvelopeIdCollision | node/pending.go:36-43 | for all node ids and all integer clock readings, exactly when two ids are equal |
| Naming.EnvelopeIdInjective | node/pending.go:36-43 | with clocks from 1970 on, equal ids iff equal node id and equal reading, whatever dashes the node ids contain |
| Naming.NegativeClockCollides | node/pending.go:36-43 | two different nodes that share an id when a clock reads before 1970 |
| Naming.AnonKeyInjective | transport/server.go:368-370 | different sequence numbers give different anonymous keys |
| Naming.DupKeyInjective | transport/server.go:371-374 | duplicate keys agree only for the same id and sequence number |
| Naming.AnonKeyIsNoDupKey | transport/server.go:368-374 | no anonymous key is a duplicate key of any id |
| Naming.DecimalRoundTrip | transport/server.go:370-373 | a printed number reads back as itself and contains no dash |
| Naming.DecimalIsCanonical | transport/server.go:370-373 | it consists of digits, and starts with a zero only if it is zero |
| Naming.EnvelopeIdReadsBack | node/pending.go:36-43 | an envelope id is the node id, a dash, and the one decimal form of the clock reading, sign included, for every node id and reading |
| Naming.KeyExamples | transport/server.go:370-373 | the form of the two synthetic keys |
| FrameworkNode.Node.New | node/node.go:45-61 | exactly which configurations are refused, and with which error |
| FrameworkNode.Node.Start | node/node.go:87-109 | a new server, with the configured hook, iff the node listens; a new client iff it has a parent, which has dialled both sides once, downstream also when upstream failed, and has the stream of each side that opened; retryLoop once however often it is called; connected iff both opened |
| FrameworkNode.Node.OnUpstream | node/node.go:67-71 | adds the handler after those of its kind and changes no other kind |
| FrameworkNode.Node.OnDownstream | node/node.go:75-79 | likewise downstream |
| FrameworkNode.Node.RunUpstreamHandlers | node/node.go:235-242 | calls the handlers of the envelope's kind, each once, in order of registration |
| FrameworkNode.Node.RunDownstreamHandlers | node/node.go:244-251 | likewise downstream |
| FrameworkNode.Node.ForwardUp | node/node.go:258-267 | without a parent the envelope stays; else it is sent or joins the queue at its end, and never both |
| FrameworkNode.Node.HandleUpstreamFromChild | node/node.go:215-219 | handlers first, then the same |
| FrameworkNode.Node.SendUp | node/node.go:205-209 | the new envelope has the given kind and payload, the clock's seconds, and an id that reads back as this node and the clock; the handlers of its kind are called with it and it is forwarded as above |
| FrameworkNode.Node.RetryPass | node/node.go:292-307 | one attempt through the node's client for each envelope of the drained batch, in order, whatever is pushed meanwhile; it stops early only right after an attempt that finds the context done, and then leaves the tail; the client is as its sends left it |
| FrameworkNode.PassMeans | node/node.go:292-307 | in terms of the network: for distinct envelopes, the i-th is sent iff its Send succeeds and there was a stream or one could be opened; sent and failed, each in order, are the part attempted, and the queue merges the failed with what others pushed; it breaks off right after the first attempt that finds the context done |
| FrameworkNode.FieldsGoOn | node/node.go:298-301 | the client comes to each attempt as the one before it left it |
| FrameworkNode.Node.RunRetryLoop | node/node.go:283-310 | the whole loop, pass after pass through the node's client until the context is done, ends as the loop specified |
| FrameworkNode.LoopMeans | node/node.go:283-310 | the loop makes a pass at its first tick over the queue and what was pushed since, ends with it if that found the context done, and is else the loop over the remaining ticks from where the pass left client and queue |
| FrameworkNode.Node.SendDown | node/node.go:172-178 | an empty report without a server; else the server logs one new envelope with the given kind and payload, the clock's seconds and an id that reads back as this node and the clock, and reports as its broadcast of that envelope does |
| FrameworkNode.Node.SendToChild | node/node.go:188-194 | the error of a node without a server; with one, no such child iff there is none, buffer full iff its channel holds 16, and else a new envelope with the given kind, payload and clock at the end of that channel |
| FrameworkNode.Node.HandleDownstreamFromParent | node/node.go:225-233 | handlers, then a broadcast of the same envelope to all children |
| DownstreamReach.OnlyTheAddressed | node/node.go:172-233 | the nodes that run handlers for an event are strict descendants of its origin, and of the named child for a SendToChild, each once, each with its parent unless that is the origin |
| DownstreamReach.SettledReach | node/node.go:172-233 | once an event has settled, an addressed node has run its handlers iff no mailbox, connection or link on the path down to it refused the envelope |
| DownstreamReach.SiblingsGetNothing | node/node.go:188-194 | a targeted envelope reaches nobody below a sibling of the named child |
| DownstreamProgress.EverythingSettles | node/node.go:172-233 | from every reachable state some continuation without a failure, a disconnect or a new event, with links in order and each recvLoop done with one envelope before the next, brings every copy to rest and ends every broadcast: no deadlock, whatever channels are full |
| DownstreamProgress.EventsSettle | node/node.go:172-233 | so every event settles |
| DownstreamProgress.TargetedReachesSubtree | node/node.go:188-194 | for every tree and child, a run in which a SendToChild to it makes every node at or below it run its handlers |
| DownstreamProgress.BroadcastReachesSubtree | node/node.go:172-178 | for every tree and node, a run in which its SendDown makes every node below it run its handlers |
| DownstreamProgress.StaysIffChildless | node/node.go:180-194 | in all runs a SendToChild goes no further than the child it names iff that child has no children |
| DownstreamReach.NewCopy | transport/server.go:201-211 | an offered envelope enters the channel iff the child is registered and its channel holds fewer than 16, and is refused for the one reason or the other otherwise |
| DownstreamReach.RefusedLater | transport/server.go:292-307 | once accepted, an envelope is refused only by a stream that dies, a failed Send, or the disconnect of the handler |
| DownstreamReach.EachRefusalHappens | transport/server.go:292-307 | and each of these can happen: on the link at any moment, in the handler's hand at any moment, in the channel once the handler is leaving and its parent not broadcasting |
| DownstreamInvariant.RunKeepsInv | node/node.go:172-233 | every interleaving over every tree keeps the invariant behind these |
| RegistryMailboxes.Mailbox | transport/server.go:298-307 | in every interleaving, what entered a session's channel is in order what was sent on the stream, then what is in hand, then the channel, of at most 16 envelopes, and after it has unregistered what was discarded |
| RegistryMailboxes.EveryHandlerCanDrain | transport/server.go:298-307 | from every reachable state in which a handler is in its loop, whoever holds mu, steps of that handler alone send all that is in its hand and its channel, in order |
| RegistryMailboxes.CommonOrder | transport/server.go:196-247 | two children that both accepted two operations accepted them in the same order, that in which the operations took the lock |
| RegistryBroadcasts.BroadcastReport | transport/server.go:196-216 | for every order of the children and with handlers popping: delivered and dropped add up to the children; dropped has no repeats, and a child got the envelope iff it is not dropped |
| RegistryBroadcasts.BroadcastFromStart | transport/server.go:196-216 | of the children there when the broadcast took mu it drops only some that had 16 envelopes queued then, all of those whose handler pops nothing until it is done, and the others have accepted its envelope |
| RegistryKeys.Bijection | transport/server.go:364-384 | when claimed ids do not clash, keys and live handlers correspond one to one, each key to its own handler's channel |
| RegistryKeys.UnregisterRemovesOwn | transport/server.go:380-384 | a handler that leaves then removes its own entry and no other |
| RegistryKeys.SafeIffNoClash | transport/server.go:364-384 | over all runs every live handler keeps its entry iff no claimed id is a synthetic key that another claimed id can be given |
| RegistryKeys.ClashTakesKey | transport/server.go:364-378 | for every clashing set of ids, a run in which a live handler loses its entry |
| RegistryKeys.AnonymousOneClashes | transport/server.go:368-370 | the example of an id that looks anonymous |
| RegistryKeys.PlainIdsDoNotClash | transport/server.go:364-378 | ids not of synthetic shape never clash |
| RegistryKeys.RegisterKeepsEntries | transport/server.go:364-378 | a registration keeps everyone's entry iff the key it gives out was free |
| RegistryKeys.RunKeepsKeysKnown | transport/server.go:364-378 | clash or not, every key is the claimed id or was made from it |
| RegistryCounters.SentCounter | transport/server.go:201-211 | the sent counter is the sum over all sessions of envelopes sent, in hand, queued and discarded |
| RegistryCounters.SentAndDropped | transport/server.go:201-246 | sent and dropped together are all attempts of broadcasts and of targeted sends that found their child |
| TransportServer.Server.RegisterChild | transport/server.go:364-378 | the key is the claimed id if that is free, else the anonymous or duplicate key with the next number, which is used up only then; it leads to the returned, empty channel, and no other entry changes |
| TransportServer.Server.UnregisterChild | transport/server.go:380-384 | that key is gone and no other; what was sent stays sent, and what was in hand or queued is discarded, in order |
| TransportServer.Server.BroadcastDownstream | transport/server.go:196-216 | for every iteration order and any steps of handlers meanwhile: drops only children that had 16 envelopes queued at entry, and all of those whose handler takes no step; every other child whose handler takes none has the envelope at the end of its channel, and nothing else new; error, result and both counters agree with that |
| TransportServer.Server.SendToChild | transport/server.go:232-247 | no such child iff there is none, buffer full iff its channel holds 16, and else sent: the envelope is at the end of that channel, nothing else has changed, and each outcome is counted as what it is |
| TransportServer.Server.Receive | transport/server.go:302-302 | the head of the channel, or nothing when it is empty |
| TransportServer.Server.Downstream | transport/server.go:283-308 | a call the installed hook refuses returns the hook's error and leaves the registry as it was; without a hook none is refused; an approved one has unregistered when it returns, however it came to, and all that entered its channel was sent in order or is discarded; nothing is discarded if no context is done, no Send fails, and after all else the handler has 16 rounds to itself |
| TransportServer.Server.ServeOnce | transport/server.go:298-307 | one turn of that loop: the head of the channel is sent if the Send succeeds; if it fails, or the context is done, nothing is and the handler leaves; with an empty channel it waits |
| TransportServer.Server.Upstream | transport/server.go:253-278 | a call the installed hook refuses gets its error and is not served; else the handler gets each received envelope once, in order, up to the first it fails for |
| TransportServer.Server.Authorize | transport/server.go:313-325 | the error is the answer of the installed hook, and none without one; exactly one decision is recorded, the refusal or the approval; afterwards the id is pending iff it was refused and is not empty |
| TransportServer.Server.RecordRejection | transport/server.go:331-345 | the pending map stays the fold of the decisions |
| TransportServer.Server.ClearRejection | transport/server.go:349-353 | likewise |
| TransportServer.Server.PendingChildren | transport/server.go:120-128 | every pending child once, in any order |
| Rejections.PendingMeans | transport/server.go:331-353 | after any history, an id is pending iff it is not empty and some rejection of it came after its last approval, and what is shown is from the first such rejection |
| Policy.AllowList.constructor | examples/node/allowlist.go:23-29 | exactly the ids given |
| Policy.AllowList.Add | examples/node/allowlist.go:31-35 | that id more |
| Policy.AllowList.Remove | examples/node/allowlist.go:37-41 | that id less |
| Policy.AllowList.List | examples/node/allowlist.go:43-51 | all ids, each once |
| Policy.AllowList.Authorize | examples/node/allowlist.go:65-86 | approval iff the id is not empty, listed, and the CommonName of the first certificate; else an error that names the first of these checks to fail |
| Admission.SessionsAreEntitled | transport/server.go:283-296 | in every run, each session was registered by a call that claimed its non-empty id, which was listed at its check and is its certificate's CommonName; its key is that id or a duplicate key made from it |
| Admission.OutcomesAreRecorded | transport/server.go:313-325 | in every run, whatever is listed and removed meanwhile, a call is let through iff it was entitled at its check and is else refused for the first check that failed; either is on record as soon as the call goes on or ends |
| Admission.EntitledCanRegister | transport/server.go:283-296 | from every reachable state with no broadcast under way, a Downstream call that is entitled can register, with a session that serves it, and is then not pending |
| Admission.SessionsKeepEntries | transport/server.go:283-296 | with the policy installed, whatever is listed and removed, every live session has the registry entry of its key, if no listed id is a duplicate key another can be given |
| Admission.SafeIffNoClash | transport/server.go:364-384 | and that condition is exact: all runs that list only given ids keep every live session's entry iff none of those ids is a duplicate key that another of them can be given |
| Admission.RemoveDisconnectsNobody | examples/node/allowlist.go:37-41 | after a Remove, and whatever follows, a session goes only when its own handler unregisters it, and until then its key leads to its channel, unless listed ids clash |
| Admission.RemovedIsDenied | examples/node/allowlist.go:65-71 | an RPC for a removed id that is checked afterwards is never approved, in any continuation that does not list it again |
| Admission.PendingChildren | transport/server.go:313-353 | the pending map of every run is the fold of the decisions recorded |
| ClientOwnership.OneOwner | transport/client.go:136-209 | each connection dialled is held by exactly one goroutine reopening that side, or is the installed one, or is closed |
| ClientOwnership.OpenConnections | transport/client.go:136-209 | on either side, open connections are those held by reopens in flight plus at most one installed |
| ClientClose.NothingOpenIff | transport/client.go:333-352 | Close leaves nothing open on a side, once in-flight reopens have finished, iff no reopen of that side is past its check of closed when Close runs; and then nothing is ever open again |
| ClientClose.AfterClose | transport/client.go:333-352 | once Close has run no reopen not yet past its check installs anything, and when none is in flight at most the installed connection is open, for good |
| ClientClose.LateInstallStaysOpen | transport/client.go:157-164 | a run in which a connection is open after Close, with nothing in flight |
| ClientSends.NeverSendsOnNil | transport/client.go:291-309 | in every interleaving a Send has a stream |
| ClientSends.SendsExclude | transport/client.go:292-309 | no two goroutines are under sendMu at once |
| ClientSends.SendOutcome | transport/client.go:291-320 | a call makes at most one Send, and returns nil iff it made one and that succeeded |
| ClientSends.StreamStaysNonNil | transport/client.go:157-164 | upstreamStream, once set, is never nil again |
| ClientStreams.CurrentStreamIsServed | transport/client.go:198-207 | while downstreamStream is set, exactly one recvLoop reads it or is about to start |
| ClientStreams.NoStaleClobber | transport/client.go:249-258 | a current stream is given up only by its own recvLoop after an error, or for a newly opened one |
| ClientStreams.DownstreamCanRecover | transport/client.go:216-244 | from every reachable state that is not closed, wherever reconnectLoop or the Connect that starts it is, some continuation has a live downstream stream newer than any before |
| ClientRecovery.UpstreamCanRecover | transport/client.go:291-320 | from every reachable state that is not closed, whatever its goroutines are at, some continuation has an open upstream connection and a stream on it newer than any before, by way of a Send that fails |
| TransportClient.Client.ReopenUpstream | transport/client.go:136-165 | it works iff not closed and dial and open succeed; then a new connection and stream are current and the old connection is closed; else both stay as they were and a connection dialled in vain is closed |
| TransportClient.Client.ReopenDownstream | transport/client.go:170-209 | likewise; the previous stream is cancelled whatever comes of it |
| TransportClient.Client.Connect | transport/client.go:84-97 | both sides are attempted, whatever came of the first, and each has a new stream iff its own dial and open succeed; reconnectLoop is at its select afterwards, and the recvLoop of a downstream stream it opened at its Recv; connected exactly when not closed and each side opened now or before |
| TransportClient.Client.Reconnect | transport/client.go:223-242 | each side that was missing at the tick has a new stream iff its own dial and open succeed, a downstream stream with its recvLoop; a side that was there stays; connected afterwards exactly when not closed and each side was there or opened |
| TransportClient.Client.SendUpstream | transport/client.go:291-320 | at most one Send, on the current stream or one opened for it; success iff it happened and succeeded; after a failed Send the client has a stream newer than any before, if not closed and dial and open succeed |
| TransportClient.Client.RecvLoop | transport/client.go:246-267 | run by the recvLoop that Connect or reconnectLoop started for the stream: the handler gets each envelope once in order; then the stream is cleared iff it is still the current one |
| TransportClient.Client.Close | transport/client.go:333-352 | closes the current connections and no others, cancels the downstream stream, leaves the streams set, returns the first error there is, and the client is not connected |
| ClientRefinement.ReopenUpRuns | transport/client.go:136-165 | reopenUpstream run without interruption is a run of the machine with the outcome of the method |
| ClientRefinement.ReopenDownRuns | transport/client.go:170-209 | likewise for reopenDownstream, with the recvLoop it starts |
| ClientRefinement.ConnectRuns | transport/client.go:84-97 | likewise for Connect, which leaves reconnectLoop at its select |
| ClientRefinement.TickRuns | transport/client.go:223-242 | likewise for a tick of reconnectLoop, with the recvLoop it starts |
| ClientRefinement.SendRuns | transport/client.go:291-320 | likewise for sendUpstream, with its one Send, its result, and the new stream after a failed Send |
| ClientRefinement.CallingClose | transport/client.go:333-352 | a run of the machine goes on by a whole Close |
| ClientRefinement.CallingConnect | transport/client.go:84-97 | likewise by a whole Connect, with the reconnectLoop and the recvLoop it starts |
| ClientRefinement.CallingSend | transport/client.go:291-320 | likewise by a whole sendUpstream, which returns nil in the machine iff it does in the method, and after a failed Send has a stream newer than any before if dial and open succeed |
| ClientRefinement.Ticking | transport/client.go:223-242 | likewise by a tick of reconnectLoop, with the recvLoop it starts, or its return when the client is closed |
| ClientRefinement.Receiving | transport/client.go:246-260 | likewise by the end of a recvLoop, which clears its own stream only |

## Left out

- gRPC, TLS, certificates and their generation: only the outcomes of dialling, opening, sending and receiving, and the CommonNames presented, are modelled.
- Server.Listen, Server.Stop, address resolution, dial options, process exit: plumbing.
- HTTP handlers, dashboard, agent, configuration files, BoltDB storage, checkdb: they would add only easy members.
- Prometheus machinery and latency histograms: only the sent and dropped counters, as values.
- Real time: tickers and pacing are actions that may happen at any moment; error texts and log lines are not modelled.
- The design documents under docs/: they describe an earlier architecture, and the code was followed.
- The window before Start returns, in which the server may listen while the client is still nil (node/node.go:93-100): the models begin after it.
- Integer width: anonSeq and the counters are unbounded, so 64-bit wrap-around is not modelled.
- What handlers do: a handler is a number, and in the two tree machines running all handlers of a node for one envelope is one step.
- A child with several registrations at one parent in the downstream tree machine: it assumes at most one at a time; the registry machine has no such limit.
- Mutation shared between goroutines in the classes: a method of Node or Client runs to its end before the next begins, and one of Server is interleaved only with the steps of others that it takes as a parameter; all interleavings are those of the machines.
- Channels as shared references: the server names a channel by the number of the session it was made for.
- TransportServer.Server.Downstream: other goroutines' broadcasts happen whole between its own steps there, and it leaves when the given rounds are used up; the registry machine has neither restriction.
- UpstreamProgress.CanArriveIffNotStuck: it lets a Send succeed where the context is done, as it may until the streams have noticed; UpstreamDelivery.ArrivesIffClear does not.
- UpstreamProgress.NothingIsStranded: likewise.
- UpstreamDelivery.ArrivesIffClear: it says that delivery stays possible, not that it happens, since the code promises no fairness.
- UpstreamCalls.RetryPassRuns: the concurrent pushes are those of forwarders whose send had failed when the pass began.
