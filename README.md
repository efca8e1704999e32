# LeaderInitiator — a verified model in Dafny

Spring Integration's `LeaderInitiator` enrols a leadership `Candidate` in a
ZooKeeper leader election run by Curator's `LeaderSelector`. It builds the
election path from a namespace and the candidate's role, starts and stops its
registration (`SmartLifecycle`), and adapts Curator's `takeLeadership`
callback into the candidate's `onGranted` / `onRevoked` calls and the
optional granted/revoked events. The model has three parts:

- `LeaderPath` (`leader_path.dfy`): `buildLeaderPath` as a pure function,
  together with `StringUtils.hasText` and `Character.isWhitespace`, which it
  relies on. The lemmas cover the default namespace, the '/' separators and
  idempotent normalisation.
- `Initiator` (`leader_initiator.dfy`): the class `LeaderInitiator`, with
  the fields the source updates in place (`running`, `leaderSelector`, the
  client's started state, `phase`, `autoStartup`, whether a publisher is
  set). Each Curator `LeaderSelector` is an abstract value record. A ghost
  history of every selector created carries the invariant: all but the
  newest are closed, and the initiator is running exactly when the newest
  is open. Curator's own preconditions (a selector is started once, and is
  closed only after it was started) are `requires` on the helper functions
  `StartSelector` and `CloseSelector`, so the verifier checks that `start`
  and `stop` never break them.
- `LeaderListener` (`leader_listener.dfy`): what one `takeLeadership` call
  does. `Events` lists the candidate and publisher calls it makes, and
  `ExitOf` says how it exits. `WellPaired` states that grants and revokes
  alternate one for one. `LeaderInitiator.TakeLeadership` runs the
  try/catch/finally step by step, appends to a ghost trace, and keeps the
  whole trace well paired.

`nullable.dfy` holds `Option`, used for Java `null`.

Two facts of the code shape the model:
- After `stop`, `leaderSelector` still refers to the closed selector (it is
  not cleared). So the invariant is "running exactly when the current
  selector is open", not "a selector exists exactly when running".
- `CuratorContext.isLeader` and `yield` read the initiator's current
  selector. They do not read the selector of the grant the context was made
  for. So a context kept from an earlier grant acts on whichever selector is
  current.

## Model

| member | source | states |
|---|---|---|
| `LeaderPath.HasTextMeans` | spring-integration-zookeeper/src/main/java/org/springframework/integration/zookeeper/leader/LeaderInitiator.java:204 | the `hasText` test used for the namespace holds exactly when some character is not whitespace |
| `LeaderPath.NormalizeNamespace` | spring-integration-zookeeper/src/main/java/org/springframework/integration/zookeeper/leader/LeaderInitiator.java:204-210 | the prefix always starts and ends with '/'; a null or blank namespace gives `DEFAULT_NAMESPACE`; otherwise the prefix is the namespace itself, with a '/' added in front exactly when it does not start with one and at the end exactly when it does not end with one |
| `LeaderPath.BuildLeaderPath` | spring-integration-zookeeper/src/main/java/org/springframework/integration/zookeeper/leader/LeaderInitiator.java:202-212 | the path starts with '/', ends with the role, and has '/' right before the role; a null or blank namespace yields `"/spring-integration/leader/" + role`; otherwise the part before the role is the namespace with a '/' added at each end exactly where one is missing |
| `LeaderPath.SlashedNamespaceUnchanged` | spring-integration-zookeeper/src/main/java/org/springframework/integration/zookeeper/leader/LeaderInitiator.java:205-211 | a namespace that already starts and ends with '/' is used unchanged as the prefix of the role |
| `LeaderPath.SeparatorVariantsAgree` | spring-integration-zookeeper/src/main/java/org/springframework/integration/zookeeper/leader/LeaderInitiator.java:205-211 | "ns", "/ns", "ns/" and "/ns/" all give "/ns/" + role |
| `LeaderPath.NormalizeIdempotent` | spring-integration-zookeeper/src/main/java/org/springframework/integration/zookeeper/leader/LeaderInitiator.java:204-210 | normalising an already normalised namespace changes nothing |
| `LeaderPath.BlankNamespaceExamples` | spring-integration-zookeeper/src/main/java/org/springframework/integration/zookeeper/leader/LeaderInitiator.java:46 | null, "" and whitespace-only namespaces give the default path for role "worker" |
| `LeaderPath.SpelledNamespaceExamples` | spring-integration-zookeeper/src/main/java/org/springframework/integration/zookeeper/leader/LeaderInitiator.java:205-211 | "ns" and "/ns/" both give "/ns/worker" |
| `LeaderListener.Events` | spring-integration-zookeeper/src/main/java/org/springframework/integration/zookeeper/leader/LeaderInitiator.java:223-246 | one win begins with onGranted and ends with onRevoked, followed by the revoked event when a publisher is set; its calls are well paired |
| `LeaderListener.EventsCounts` | spring-integration-zookeeper/src/main/java/org/springframework/integration/zookeeper/leader/LeaderInitiator.java:224-245 | exactly one onGranted and one onRevoked per win; the granted event iff a publisher is set and onGranted returned; the revoked event iff a publisher is set |
| `LeaderListener.ExitOf` | spring-integration-zookeeper/src/main/java/org/springframework/integration/zookeeper/leader/LeaderInitiator.java:233-239 | an InterruptedException from onGranted or from the hold is swallowed and the call returns; any other exception from either escapes |
| `LeaderListener.NotWellPairedExamples` | spring-integration-zookeeper/src/main/java/org/springframework/integration/zookeeper/leader/LeaderInitiator.java:224-245 | the pairing the trace keeps rejects a revoked event with no onRevoked right before it, a second granted event, and a granted event after the revoke |
| `LeaderListener.GrantsMatchRevokes` | spring-integration-zookeeper/src/main/java/org/springframework/integration/zookeeper/leader/LeaderInitiator.java:240-246 | in any well-paired history there are as many onRevoked calls as onGranted calls |
| `LeaderListener.WellPairedConcat` | spring-integration-zookeeper/src/main/java/org/springframework/integration/zookeeper/leader/LeaderInitiator.java:220-247 | consecutive well-paired wins form a well-paired history |
| `Initiator.LiveCountOfClosedPrefix` | spring-integration-zookeeper/src/main/java/org/springframework/integration/zookeeper/leader/LeaderInitiator.java:177 | when every selector but the newest is closed, at most the newest is still open |
| `Initiator.LeaderInitiator.constructor` | spring-integration-zookeeper/src/main/java/org/springframework/integration/zookeeper/leader/LeaderInitiator.java:104-108 | stores client, candidate and namespace; not running, no selector, autoStartup true, phase 0, no publisher |
| `Initiator.LeaderInitiator.WithDefaultNamespace` | spring-integration-zookeeper/src/main/java/org/springframework/integration/zookeeper/leader/LeaderInitiator.java:93-95 | as the three-argument constructor, with namespace `DEFAULT_NAMESPACE` |
| `Initiator.LeaderInitiator.IsRunning` | spring-integration-zookeeper/src/main/java/org/springframework/integration/zookeeper/leader/LeaderInitiator.java:113-116 | the running flag, which is true exactly when the current selector exists and is not closed |
| `Initiator.LeaderInitiator.GetPhase` | spring-integration-zookeeper/src/main/java/org/springframework/integration/zookeeper/leader/LeaderInitiator.java:118-121 | returns the stored phase |
| `Initiator.LeaderInitiator.SetPhase` | spring-integration-zookeeper/src/main/java/org/springframework/integration/zookeeper/leader/LeaderInitiator.java:127-129 | stores the phase and changes nothing else |
| `Initiator.LeaderInitiator.IsAutoStartup` | spring-integration-zookeeper/src/main/java/org/springframework/integration/zookeeper/leader/LeaderInitiator.java:131-134 | returns the stored autoStartup flag |
| `Initiator.LeaderInitiator.SetAutoStartup` | spring-integration-zookeeper/src/main/java/org/springframework/integration/zookeeper/leader/LeaderInitiator.java:140-142 | stores the flag and changes nothing else |
| `Initiator.LeaderInitiator.SetLeaderEventPublisher` | spring-integration-zookeeper/src/main/java/org/springframework/integration/zookeeper/leader/LeaderInitiator.java:195-197 | records whether a publisher is set (null clears it) and changes nothing else |
| `Initiator.LeaderInitiator.Start` | spring-integration-zookeeper/src/main/java/org/springframework/integration/zookeeper/leader/LeaderInitiator.java:147-167 | changes nothing when running; otherwise calls client.start() only if the client is not started, and stops there if that throws; otherwise registers exactly one new selector (path from `buildLeaderPath`, candidate id, auto-requeue, started) and sets running; keeps the invariant |
| `Initiator.LeaderInitiator.Register` | spring-integration-zookeeper/src/main/java/org/springframework/integration/zookeeper/leader/LeaderInitiator.java:158-163 | appends one new selector with the given path and the candidate's id, auto-requeue on, started and open; it becomes current and running is set |
| `Initiator.LeaderInitiator.Stop` | spring-integration-zookeeper/src/main/java/org/springframework/integration/zookeeper/leader/LeaderInitiator.java:173-182 | changes nothing when not running; otherwise closes the current selector, leaves it as the current one and clears running; keeps the invariant |
| `Initiator.LeaderInitiator.StopThenRun` | spring-integration-zookeeper/src/main/java/org/springframework/integration/zookeeper/leader/LeaderInitiator.java:184-188 | the effect of stop, then exactly one run of the callback, whether or not the initiator was running |
| `Initiator.LeaderInitiator.LiveSelectors` | spring-integration-zookeeper/src/main/java/org/springframework/integration/zookeeper/leader/LeaderInitiator.java:147-182 | after any sequence of calls: when running, the current selector is registered, started and open; the number of open selectors ever created is 1 when running and 0 otherwise |
| `Initiator.LeaderInitiator.ContextIsLeader` | spring-integration-zookeeper/src/main/java/org/springframework/integration/zookeeper/leader/LeaderInitiator.java:259-262 | answers from the current selector's leadership flag |
| `Initiator.LeaderInitiator.ContextYield` | spring-integration-zookeeper/src/main/java/org/springframework/integration/zookeeper/leader/LeaderInitiator.java:264-267 | records one leadership interruption request on the current selector and changes nothing else |
| `Initiator.LeaderInitiator.TakeLeadership` | spring-integration-zookeeper/src/main/java/org/springframework/integration/zookeeper/leader/LeaderInitiator.java:219-247 | appends exactly the calls `Events` gives to the trace, exits as `ExitOf` says, and keeps the whole trace well paired |

## Left out

- Concurrency: `synchronized (lifecycleMonitor)`, `volatile` visibility and the threads Curator runs callbacks on. `start`, `stop` and `takeLeadership` are ordinary sequential methods.
- The hold `Thread.sleep(Long.MAX_VALUE)` is not modelled as blocking. An input `HoldEnd` says how it ended.
- Curator internals are not modelled: the election itself, auto-requeue re-entry, how `close` interrupts a running hold, and how `hasLeadership` is maintained. The selector's `leader` flag stands for Curator's own state, and nothing in the model sets it. `interruptLeadership` is recorded only as a count of requests.
- `CuratorFramework.start()` is a foreign call. Its outcome is the `clientStartFails` input. Exceptions from constructing, starting or closing a `LeaderSelector` are not modelled; its own "start once" and "close after start" preconditions are.
- Exceptions thrown by `onRevoked` or by the event publisher are not modelled. The source does not handle them.
- The bodies of `Candidate.onGranted` and `onRevoked` and the publisher's internals are not modelled. Each call is one trace entry, and `onGranted` has an outcome input.
- Logging and `CuratorContext.toString` are not modelled.
- A null role is not modelled. Java would append the text "null"; the model takes the role as a string.
- Strings are sequences of Unicode scalar values, not UTF-16 code units. `Character.isWhitespace` is true only for characters of the Basic Multilingual Plane, so `hasText` agrees. The whitespace set is that of Java 8, which still counts U+180E.
- Initiator.LeaderInitiator.Register: the invariant records each selector's id, auto-requeue and started state, but not its path. The path of the new selector is stated in the ensures of `Start`.
