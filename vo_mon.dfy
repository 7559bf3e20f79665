/**
 * The life cycle of a VO test VM (`VOTest` in vo_mon.py): write the auth
 * file, ask the Infrastructure Manager (IM) to create a VM from the TOSCA
 * template, poll its state a bounded number of times, then either give up
 * or run one SSH command inside it, and destroy it.
 *
 * The IM client, the RSA key parser, the SSH connection, the clock and the
 * file system form the `World`: its replies are fixed in advance and every
 * remote call it receives is appended to its trace.
 */
module VoMon {
  import opened Wrappers
  import opened VoMonText

  /** `AUTH_FILE`: the shared file the IM client reads its credentials from. */
  const AuthFile: string := "auth.dat"

  /** `MAX_NUM_CHECKS`: how many times the VM state is asked for. */
  const MaxNumChecks: nat := 10

  const Configured: string := "configured"

  /** What a VO test is about: the VO, the site, and the access token. */
  datatype Identity = Identity(vo: string, site: string, token: string)

  /** A call that leaves the process, in the order it is made. */
  datatype Call =
    | Create(template: string)
    | Sleep(seconds: nat)
    | QueryState(infId: string)
    | QueryContMsg(infId: string)
    | GetOutputs(infId: string)
    | RunCommand(host: string, user: string, command: string)
    | Destroy(infId: string)

  /**
   * The infrastructure outputs as `get_infra_property(..., "outputs")`
   * returns them: a failure with its detail, or the `node_ip` entry and
   * the `node_creds` record, either of which may be missing.
   */
  datatype OutputsReply =
    | OutputsFailed(detail: string)
    | OutputsReturned(nodeIp: Option<string>, nodeCreds: Option<map<string, string>>)

  /** What running the SSH command gives: a result, or an exception. */
  datatype CommandReply =
    | CommandSucceeded(stdout: string)
    | CommandFailed(stderr: string)
    | SessionError(message: string)

  /** The exceptions `launch_test_vm` lets escape. */
  datatype Failure =
    | VOTestError(message: string)   // VOTestException
    | KeyError(key: string)          // a missing entry in the outputs
    | InvalidKey                     // the private key does not parse

  datatype Outcome = Returned(passed: bool) | Raised(failure: Failure)

  /**
   * How the outside world answers. `stateAt(n)` is the state reported by
   * the `n`-th state query; the other replies depend on the request only.
   */
  datatype Replies = Replies(
    create: string -> (bool, string),
    stateAt: nat -> string,
    outputs: string -> OutputsReply,
    keyValid: string -> bool,
    command: (string, string, string) -> CommandReply,
    destroy: string -> (bool, string))

  // ---------------------------------------------------------------------
  // The specification of one run, as values

  /** Where polling stopped: the last state seen, `attempts`, and how many state queries have been made in all. */
  datatype Poll = Poll(state: string, attempts: nat, queries: nat)

  /** The `while` loop of `launch_test_vm`, from a given state and attempt number on. */
  function PollFrom(stateAt: nat -> string, queries: nat, state: string, attempts: nat): Poll
    decreases MaxNumChecks + 1 - attempts
  {
    if state != Configured && attempts <= MaxNumChecks then
      PollFrom(stateAt, queries + 1, stateAt(queries), attempts + 1)
    else
      Poll(state, attempts, queries)
  }

  /** The calls of `n` iterations of the poll loop. */
  function PollCalls(infId: string, n: nat): seq<Call>
  {
    if n == 0 then [] else PollCalls(infId, n - 1) + [Sleep(10), QueryState(infId)]
  }

  /** The result of a part of the run: an exception message if one escaped, the calls made, and the files left. */
  datatype Step = Step(error: Option<string>, calls: seq<Call>, files: map<string, string>)

  /** `destroy_test_vm`. */
  function DestroyVm(id: Identity, r: Replies, infId: string, files: map<string, string>): Step
  {
    var written := files[AuthFile := AuthFileContent(id.token, id.site, id.vo)];
    var (ok, err) := r.destroy(infId);
    if ok then Step(None, [Destroy(infId)], written - {AuthFile})
    else Step(Some(err), [Destroy(infId)], written)
  }

  /** How `launch_test_vm` ends after destroying the VM: `passed`, unless the destroy raised. */
  function Finish(passed: bool, d: Step): Outcome
  {
    if d.error.None? then Returned(passed) else Raised(VOTestError(d.error.value))
  }

  /** The SSH access read from the outputs, or the exception that reading raises. */
  datatype Access = Access(host: string, user: string, pkey: string) | NoAccess(failure: Failure)

  /** Lines 112-122 of `launch_test_vm`: the outputs are looked up in order, then the key is parsed. */
  function SshAccess(o: OutputsReply, keyValid: string -> bool): Access
  {
    match o
    case OutputsFailed(detail) => NoAccess(VOTestError("False " + detail))
    case OutputsReturned(ip, creds) =>
      if ip.None? then NoAccess(KeyError("node_ip"))
      else if creds.None? then NoAccess(KeyError("node_creds"))
      else if "user" !in creds.value then NoAccess(KeyError("user"))
      else if "token" !in creds.value then NoAccess(KeyError("token"))
      else if !keyValid(creds.value["token"]) then NoAccess(InvalidKey)
      else Access(ip.value, creds.value["user"], creds.value["token"])
  }

  /** One whole run: its outcome, its calls, the files it leaves and the state queries made so far. */
  datatype Run = Run(outcome: Outcome, calls: seq<Call>, files: map<string, string>, queries: nat)

  /** The polling of a run that `queries` state queries precede. */
  function LaunchPoll(r: Replies, queries: nat): Poll
  {
    PollFrom(r.stateAt, queries, "pending", 1)
  }

  /**
   * `launch_test_vm(command)`, from the given files and state-query count,
   * where `template` is the rendered template (`RenderTemplate` of the
   * site and VO).
   */
  function Launch(id: Identity, template: string, r: Replies, command: string, files: map<string, string>, queries: nat)
    : Run
  {
    var written := files[AuthFile := AuthFileContent(id.token, id.site, id.vo)];
    var (created, infId) := r.create(template);
    if !created then Run(Raised(VOTestError(infId)), [Create(template)], written, queries)
    else
      var p := LaunchPoll(r, queries);
      var waited := [Create(template)] + PollCalls(infId, p.attempts - 1);
      var s := if p.state != Configured then GiveUp(id, r, infId, written) else Probe(id, r, infId, command, written);
      Run(s.outcome, waited + s.calls, s.files, p.queries)
  }

  /** What happens after polling: an outcome, the calls made, and the files left. */
  datatype Tail = Tail(outcome: Outcome, calls: seq<Call>, files: map<string, string>)

  /** The VM never became configured: ask why, destroy it, and report failure. */
  function GiveUp(id: Identity, r: Replies, infId: string, files: map<string, string>): Tail
  {
    var d := DestroyVm(id, r, infId, files);
    Tail(Finish(false, d), [QueryContMsg(infId)] + d.calls, d.files)
  }

  /**
   * The calls on the SSH path: wait, read the outputs, run the command,
   * ask why if it raised, and destroy the VM.
   */
  function SshCalls(infId: string, host: string, user: string, command: string, failed: bool): seq<Call>
  {
    [Sleep(60), GetOutputs(infId)] + [RunCommand(host, user, command)]
    + (if failed then [QueryContMsg(infId)] else []) + [Destroy(infId)]
  }

  /** The VM is configured: wait, read the outputs, run the command, destroy. */
  function Probe(id: Identity, r: Replies, infId: string, command: string, files: map<string, string>): Tail
  {
    var asked := [Sleep(60), GetOutputs(infId)];
    match SshAccess(r.outputs(infId), r.keyValid)
    case NoAccess(failure) => Tail(Raised(failure), asked, files)
    case Access(host, user, _) =>
      var reply := r.command(host, user, command);
      var d := DestroyVm(id, r, infId, files);
      Tail(Finish(true, d), SshCalls(infId, host, user, command, reply.SessionError?), d.files)
  }

  // ---------------------------------------------------------------------
  // Properties of a run

  /** The kinds of call a run is counted by. */
  datatype Kind = StateQuery | ContMsgQuery | OutputsQuery | Command | DestroyCall

  predicate OfKind(c: Call, k: Kind)
  {
    match k
    case StateQuery => c.QueryState?
    case ContMsgQuery => c.QueryContMsg?
    case OutputsQuery => c.GetOutputs?
    case Command => c.RunCommand?
    case DestroyCall => c.Destroy?
  }

  /** How many of the calls are of kind `k`. */
  function Count(calls: seq<Call>, k: Kind): nat
  {
    if calls == [] then 0 else (if OfKind(calls[0], k) then 1 else 0) + Count(calls[1..], k)
  }

  /** The calls of kind `k` among the five counted: one of the given numbers. */
  function Expect(k: Kind, states: nat, contMsgs: nat, outputs: nat, commands: nat, destroys: nat): nat
  {
    match k
    case StateQuery => states
    case ContMsgQuery => contMsgs
    case OutputsQuery => outputs
    case Command => commands
    case DestroyCall => destroys
  }

  /**
   * The calls hold exactly so many state queries, `contmsg` queries,
   * outputs queries, SSH commands and destroys.
   */
  predicate Tallied(calls: seq<Call>, states: nat, contMsgs: nat, outputs: nat, commands: nat, destroys: nat)
  {
    forall k :: Count(calls, k) == Expect(k, states, contMsgs, outputs, commands, destroys)
  }

  lemma {:induction false} CountAppend(a: seq<Call>, b: seq<Call>, k: Kind)
    ensures Count(a + b, k) == Count(a, k) + Count(b, k)
  {
    if a == [] {
      assert a + b == b;
    } else {
      assert (a + b)[1..] == a[1..] + b;
      CountAppend(a[1..], b, k);
    }
  }

  lemma CountOne(c: Call, k: Kind)
    ensures Count([c], k) == if OfKind(c, k) then 1 else 0
  {
    assert [c][1..] == [];
  }

  lemma CountPair(c: Call, d: Call, k: Kind)
    ensures Count([c, d], k) == Count([c], k) + Count([d], k)
  {
    assert [c, d] == [c] + [d];
    CountAppend([c], [d], k);
  }

  /** `n` rounds of polling make `n` state queries and no other counted request. */
  lemma {:induction false} PollCallsCount(infId: string, n: nat, k: Kind)
    ensures Count(PollCalls(infId, n), k) == if k == StateQuery then n else 0
  {
    if n == 0 {
      assert PollCalls(infId, n) == [];
    } else {
      PollCallsCount(infId, n - 1, k);
      CountPair(Sleep(10), QueryState(infId), k);
      CountOne(Sleep(10), k);
      CountOne(QueryState(infId), k);
      CountAppend(PollCalls(infId, n - 1), [Sleep(10), QueryState(infId)], k);
    }
  }

  /**
   * From any point of the loop on: polling stops within the attempt bound,
   * makes one query per attempt, ends configured or out of attempts, ends
   * on the last state reported, and stops at the first "configured".
   */
  lemma {:induction false} PollFromBounds(stateAt: nat -> string, queries: nat, state: string, attempts: nat)
    requires 1 <= attempts <= MaxNumChecks + 1
    ensures var p := PollFrom(stateAt, queries, state, attempts);
      && attempts <= p.attempts <= MaxNumChecks + 1
      && p.queries == queries + (p.attempts - attempts)
      && (p.state == Configured || p.attempts == MaxNumChecks + 1)
      && (p.attempts == attempts ==> p.state == state)
      && (p.attempts > attempts ==> p.state == stateAt(p.queries - 1))
      && (state != Configured && attempts <= MaxNumChecks ==> p.attempts > attempts)
      && (forall k :: queries <= k < p.queries - 1 ==> stateAt(k) != Configured)
    decreases MaxNumChecks + 1 - attempts
  {
    if state != Configured && attempts <= MaxNumChecks {
      PollFromBounds(stateAt, queries + 1, stateAt(queries), attempts + 1);
    }
  }

  /**
   * The poll loop of a launch makes between one and `MaxNumChecks` state
   * queries, stops at the first "configured" reply, and when it ends
   * without one it has made all `MaxNumChecks` queries and
   * `attempts == MaxNumChecks + 1`.
   */
  lemma PollStopsAtFirstConfigured(r: Replies, queries: nat)
    ensures var p := LaunchPoll(r, queries);
      && 2 <= p.attempts <= MaxNumChecks + 1
      && p.queries - queries == p.attempts - 1
      && p.state == r.stateAt(p.queries - 1)
      && (forall k :: queries <= k < p.queries - 1 ==> r.stateAt(k) != Configured)
      && (p.state != Configured ==> p.attempts == MaxNumChecks + 1)
  {
    PollFromBounds(r.stateAt, queries, "pending", 1);
  }

  /** Whether `create` succeeds, and the infrastructure id (or error) it returns. */
  predicate Created(template: string, r: Replies) { r.create(template).0 }
  function InfId(template: string, r: Replies): string { r.create(template).1 }

  /** Whether polling ends without the VM being configured. */
  predicate TimedOut(r: Replies, queries: nat) { LaunchPoll(r, queries).state != Configured }

  /** Whether the SSH `try` block is reached once the VM is configured. */
  predicate SshReached(template: string, r: Replies)
  {
    SshAccess(r.outputs(InfId(template, r)), r.keyValid).Access?
  }

  /** Whether destroying the VM succeeds. */
  predicate Destroyed(template: string, r: Replies) { r.destroy(InfId(template, r)).0 }

  function AuthContent(id: Identity): string
  {
    AuthFileContent(id.token, id.site, id.vo)
  }

  /**
   * `destroy_test_vm` makes one destroy call; when it fails it raises with
   * the error and leaves the rewritten auth file, when it succeeds it
   * removes the file. No other file changes.
   */
  lemma DestroyLeavesAuthFileOnFailure(id: Identity, r: Replies, infId: string, files: map<string, string>)
    ensures var d := DestroyVm(id, r, infId, files);
      && d.calls == [Destroy(infId)]
      && (d.error == if r.destroy(infId).0 then None else Some(r.destroy(infId).1))
      && (AuthFile in d.files <==> !r.destroy(infId).0)
      && (AuthFile in d.files ==> d.files[AuthFile] == AuthContent(id))
      && d.files - {AuthFile} == files - {AuthFile}
  {
    var d := DestroyVm(id, r, infId, files);
    assert d.files - {AuthFile} == files - {AuthFile};
  }

  /** A failed `create` raises at once: no query, no destroy, and the auth file stays. */
  lemma LaunchCreateFails(id: Identity, template: string, r: Replies, command: string, files: map<string, string>, queries: nat)
    requires !Created(template, r)
    ensures var run := Launch(id, template, r, command, files, queries);
      && run.outcome == Raised(VOTestError(InfId(template, r)))
      && run.calls == [Create(template)]
      && Tallied(run.calls, 0, 0, 0, 0, 0)
      && run.files == files[AuthFile := AuthContent(id)]
  {
    forall k: Kind {
      CountOne(Create(template), k);
    }
  }

  /** What a run that got past `create` calls after polling: giving up, or probing the VM. */
  function After(id: Identity, template: string, r: Replies, command: string, files: map<string, string>, queries: nat): Tail
  {
    var written := files[AuthFile := AuthContent(id)];
    if TimedOut(r, queries) then GiveUp(id, r, InfId(template, r), written)
    else Probe(id, r, InfId(template, r), command, written)
  }

  /** The calls of a run that got past `create`, counted: its polling and what follows it. */
  lemma LaunchCount(id: Identity, template: string, r: Replies, command: string, files: map<string, string>, queries: nat, k: Kind)
    requires Created(template, r)
    ensures var run := Launch(id, template, r, command, files, queries);
      var t := After(id, template, r, command, files, queries);
      && run.calls == [Create(template)] + PollCalls(InfId(template, r), LaunchPoll(r, queries).attempts - 1) + t.calls
      && run.outcome == t.outcome && run.files == t.files
      && Count(run.calls, k)
         == (if k == StateQuery then LaunchPoll(r, queries).attempts - 1 else 0) + Count(t.calls, k)
  {
    var p := LaunchPoll(r, queries);
    var i := InfId(template, r);
    var t := After(id, template, r, command, files, queries);
    PollStopsAtFirstConfigured(r, queries);
    CountOne(Create(template), k);
    PollCallsCount(i, p.attempts - 1, k);
    CountAppend([Create(template)], PollCalls(i, p.attempts - 1), k);
    CountAppend([Create(template)] + PollCalls(i, p.attempts - 1), t.calls, k);
  }

  /**
   * Polling without reaching "configured": exactly `MaxNumChecks` state
   * queries, then one `contmsg` query and one destroy, and the run returns
   * `False` unless the destroy raises.
   */
  lemma LaunchTimesOut(id: Identity, template: string, r: Replies, command: string, files: map<string, string>, queries: nat)
    requires Created(template, r) && TimedOut(r, queries)
    ensures var run := Launch(id, template, r, command, files, queries);
      && Tallied(run.calls, MaxNumChecks, 1, 0, 0, 1)
      && run.calls[|run.calls| - 2..] == [QueryContMsg(InfId(template, r)), Destroy(InfId(template, r))]
      && run.outcome == if Destroyed(template, r) then Returned(false) else Raised(VOTestError(r.destroy(InfId(template, r)).1))
  {
    var i := InfId(template, r);
    PollStopsAtFirstConfigured(r, queries);
    forall k: Kind
      ensures Count(Launch(id, template, r, command, files, queries).calls, k) == Expect(k, MaxNumChecks, 1, 0, 0, 1)
    {
      LaunchCount(id, template, r, command, files, queries, k);
      CountPair(QueryContMsg(i), Destroy(i), k);
      CountOne(QueryContMsg(i), k);
      CountOne(Destroy(i), k);
      assert [QueryContMsg(i)] + [Destroy(i)] == [QueryContMsg(i), Destroy(i)];
    }
    LaunchCount(id, template, r, command, files, queries, StateQuery);
  }

  lemma SshCallsCount(infId: string, host: string, user: string, command: string, failed: bool, k: Kind)
    ensures Count(SshCalls(infId, host, user, command, failed), k) == Expect(k, 0, if failed then 1 else 0, 1, 1, 1)
  {
    var asked := [Sleep(60), GetOutputs(infId)];
    var cmd := [RunCommand(host, user, command)];
    var why: seq<Call> := if failed then [QueryContMsg(infId)] else [];
    CountPair(Sleep(60), GetOutputs(infId), k);
    CountOne(Sleep(60), k);
    CountOne(GetOutputs(infId), k);
    CountOne(RunCommand(host, user, command), k);
    CountOne(QueryContMsg(infId), k);
    CountOne(Destroy(infId), k);
    assert Count(why, k) == if k == ContMsgQuery && failed then 1 else 0;
    CountAppend(asked, cmd, k);
    CountAppend(asked + cmd, why, k);
    CountAppend(asked + cmd + why, [Destroy(infId)], k);
  }

  /** The calls after polling on the SSH path, counted. */
  lemma ProbeCount(id: Identity, r: Replies, infId: string, command: string, files: map<string, string>, k: Kind)
    requires SshAccess(r.outputs(infId), r.keyValid).Access?
    ensures var access := SshAccess(r.outputs(infId), r.keyValid);
      var reply := r.command(access.host, access.user, command);
      var t := Probe(id, r, infId, command, files);
      && Count(t.calls, k) == Expect(k, 0, if reply.SessionError? then 1 else 0, 1, 1, 1)
      && t.calls[|t.calls| - 1] == Destroy(infId)
  {
    var access := SshAccess(r.outputs(infId), r.keyValid);
    var reply := r.command(access.host, access.user, command);
    SshCallsCount(infId, access.host, access.user, command, reply.SessionError?, k);
  }

  /**
   * Once the SSH `try` block is entered, the command runs once and the VM
   * is destroyed exactly once, last, whatever the command gives; the run
   * returns `True` unless the destroy raises.
   */
  lemma LaunchRunsCommand(id: Identity, template: string, r: Replies, command: string, files: map<string, string>, queries: nat)
    requires Created(template, r) && !TimedOut(r, queries) && SshReached(template, r)
    ensures var run := Launch(id, template, r, command, files, queries);
      var access := SshAccess(r.outputs(InfId(template, r)), r.keyValid);
      var reply := r.command(access.host, access.user, command);
      && Tallied(run.calls, LaunchPoll(r, queries).attempts - 1, if reply.SessionError? then 1 else 0, 1, 1, 1)
      && run.calls[|run.calls| - 1] == Destroy(InfId(template, r))
      && run.outcome == if Destroyed(template, r) then Returned(true) else Raised(VOTestError(r.destroy(InfId(template, r)).1))
  {
    var i := InfId(template, r);
    var access := SshAccess(r.outputs(i), r.keyValid);
    var reply := r.command(access.host, access.user, command);
    var contMsgs := if reply.SessionError? then 1 else 0;
    var written := files[AuthFile := AuthContent(id)];
    forall k: Kind
      ensures Count(Launch(id, template, r, command, files, queries).calls, k)
           == Expect(k, LaunchPoll(r, queries).attempts - 1, contMsgs, 1, 1, 1)
    {
      LaunchCount(id, template, r, command, files, queries, k);
      ProbeCount(id, r, i, command, written, k);
    }
    LaunchCount(id, template, r, command, files, queries, StateQuery);
    ProbeCount(id, r, i, command, written, StateQuery);
  }

  /** Without SSH access, probing stops after reading the outputs. */
  lemma ProbeWithoutAccess(id: Identity, r: Replies, infId: string, command: string, files: map<string, string>, k: Kind)
    requires SshAccess(r.outputs(infId), r.keyValid).NoAccess?
    ensures var t := Probe(id, r, infId, command, files);
      && t == Tail(Raised(SshAccess(r.outputs(infId), r.keyValid).failure), [Sleep(60), GetOutputs(infId)], files)
      && Count(t.calls, k) == Expect(k, 0, 0, 1, 0, 0)
  {
    CountPair(Sleep(60), GetOutputs(infId), k);
    CountOne(Sleep(60), k);
    CountOne(GetOutputs(infId), k);
  }

  /** When the outputs cannot be read or the key does not parse, the run raises without destroying the VM. */
  lemma LaunchCannotConnect(id: Identity, template: string, r: Replies, command: string, files: map<string, string>, queries: nat)
    requires Created(template, r) && !TimedOut(r, queries) && !SshReached(template, r)
    ensures var run := Launch(id, template, r, command, files, queries);
      && run.outcome == Raised(SshAccess(r.outputs(InfId(template, r)), r.keyValid).failure)
      && Tallied(run.calls, LaunchPoll(r, queries).attempts - 1, 0, 1, 0, 0)
      && run.files == files[AuthFile := AuthContent(id)]
  {
    var i := InfId(template, r);
    var written := files[AuthFile := AuthContent(id)];
    forall k: Kind
      ensures Count(Launch(id, template, r, command, files, queries).calls, k)
           == Expect(k, LaunchPoll(r, queries).attempts - 1, 0, 1, 0, 0)
    {
      LaunchCount(id, template, r, command, files, queries, k);
      ProbeWithoutAccess(id, r, i, command, written, k);
    }
    LaunchCount(id, template, r, command, files, queries, StateQuery);
    ProbeWithoutAccess(id, r, i, command, written, StateQuery);
  }

  /**
   * On every path: at most `MaxNumChecks` state queries and at most one
   * destroy, which happens exactly on the time-out and SSH paths; `True`
   * exactly when the SSH path is reached and the destroy succeeds, `False`
   * exactly when polling times out and the destroy succeeds.
   */
  lemma LaunchDestroysAtMostOnce(id: Identity, template: string, r: Replies, command: string, files: map<string, string>, queries: nat)
    ensures var run := Launch(id, template, r, command, files, queries);
      && Count(run.calls, StateQuery) <= MaxNumChecks
      && Count(run.calls, DestroyCall) <= 1
      && (Count(run.calls, DestroyCall) == 1 <==> Created(template, r) && (TimedOut(r, queries) || SshReached(template, r)))
      && (run.outcome == Returned(true) <==> Created(template, r) && !TimedOut(r, queries) && SshReached(template, r) && Destroyed(template, r))
      && (run.outcome == Returned(false) <==> Created(template, r) && TimedOut(r, queries) && Destroyed(template, r))
  {
    var run := Launch(id, template, r, command, files, queries);
    if !Created(template, r) {
      LaunchCreateFails(id, template, r, command, files, queries);
      assert Count(run.calls, StateQuery) == Expect(StateQuery, 0, 0, 0, 0, 0);
      assert Count(run.calls, DestroyCall) == Expect(DestroyCall, 0, 0, 0, 0, 0);
    } else {
      PollStopsAtFirstConfigured(r, queries);
      var p := LaunchPoll(r, queries);
      if TimedOut(r, queries) {
        LaunchTimesOut(id, template, r, command, files, queries);
        assert Count(run.calls, StateQuery) == Expect(StateQuery, MaxNumChecks, 1, 0, 0, 1);
        assert Count(run.calls, DestroyCall) == Expect(DestroyCall, MaxNumChecks, 1, 0, 0, 1);
      } else if SshReached(template, r) {
        LaunchRunsCommand(id, template, r, command, files, queries);
        var access := SshAccess(r.outputs(InfId(template, r)), r.keyValid);
        var reply := r.command(access.host, access.user, command);
        var contMsgs := if reply.SessionError? then 1 else 0;
        assert Count(run.calls, StateQuery) == Expect(StateQuery, p.attempts - 1, contMsgs, 1, 1, 1);
        assert Count(run.calls, DestroyCall) == Expect(DestroyCall, p.attempts - 1, contMsgs, 1, 1, 1);
      } else {
        LaunchCannotConnect(id, template, r, command, files, queries);
        assert Count(run.calls, StateQuery) == Expect(StateQuery, p.attempts - 1, 0, 1, 0, 0);
        assert Count(run.calls, DestroyCall) == Expect(DestroyCall, p.attempts - 1, 0, 1, 0, 0);
      }
    }
  }

  /**
   * The auth file is left behind exactly when no destroy succeeded, and
   * then with the credentials in it; no other file changes.
   */
  lemma LaunchAuthFile(id: Identity, template: string, r: Replies, command: string, files: map<string, string>, queries: nat)
    ensures var run := Launch(id, template, r, command, files, queries);
      && (AuthFile !in run.files <==> Count(run.calls, DestroyCall) == 1 && Destroyed(template, r))
      && (AuthFile in run.files ==> run.files[AuthFile] == AuthContent(id))
      && run.files - {AuthFile} == files - {AuthFile}
  {
    var run := Launch(id, template, r, command, files, queries);
    var written := files[AuthFile := AuthContent(id)];
    assert written - {AuthFile} == files - {AuthFile};
    LaunchDestroysAtMostOnce(id, template, r, command, files, queries);
    if !Created(template, r) {
      LaunchCreateFails(id, template, r, command, files, queries);
    } else if TimedOut(r, queries) || SshReached(template, r) {
      LaunchCount(id, template, r, command, files, queries, DestroyCall);
      DestroyLeavesAuthFileOnFailure(id, r, InfId(template, r), written);
    } else {
      LaunchCannotConnect(id, template, r, command, files, queries);
    }
  }

  // ---------------------------------------------------------------------
  // The world and the test, as objects

  class World {
    const replies: Replies
    var files: map<string, string>
    var trace: seq<Call>
    var stateQueries: nat

    constructor(replies: Replies, files: map<string, string>)
      ensures this.replies == replies && this.files == files
      ensures trace == [] && stateQueries == 0
    {
      this.replies := replies;
      this.files := files;
      trace := [];
      stateQueries := 0;
    }

    method WriteFile(path: string, content: string)
      modifies this
      ensures files == old(files)[path := content]
      ensures trace == old(trace) && stateQueries == old(stateQueries)
    {
      files := files[path := content];
    }

    /** `os.remove` behind an `os.path.exists` test. */
    method RemoveFile(path: string)
      modifies this
      ensures files == old(files) - {path}
      ensures trace == old(trace) && stateQueries == old(stateQueries)
    {
      if path in files {
        files := files - {path};
      }
    }

    method Sleep(seconds: nat)
      modifies this
      ensures trace == old(trace) + [Call.Sleep(seconds)]
      ensures files == old(files) && stateQueries == old(stateQueries)
    {
      trace := trace + [Call.Sleep(seconds)];
    }

    method Create(template: string) returns (success: bool, infId: string)
      modifies this
      ensures (success, infId) == replies.create(template)
      ensures trace == old(trace) + [Call.Create(template)]
      ensures files == old(files) && stateQueries == old(stateQueries)
    {
      trace := trace + [Call.Create(template)];
      success, infId := replies.create(template).0, replies.create(template).1;
    }

    /** `getvminfo(inf_id, 0, prop="state")`. */
    method GetState(infId: string) returns (state: string)
      modifies this
      ensures state == replies.stateAt(old(stateQueries))
      ensures stateQueries == old(stateQueries) + 1
      ensures trace == old(trace) + [QueryState(infId)] && files == old(files)
    {
      trace := trace + [QueryState(infId)];
      state := replies.stateAt(stateQueries);
      stateQueries := stateQueries + 1;
    }

    /** `getvminfo(inf_id, 0, prop="contmsg")`, whose answer is only shown. */
    method GetContMsg(infId: string)
      modifies this
      ensures trace == old(trace) + [QueryContMsg(infId)]
      ensures files == old(files) && stateQueries == old(stateQueries)
    {
      trace := trace + [QueryContMsg(infId)];
    }

    method GetOutputs(infId: string) returns (reply: OutputsReply)
      modifies this
      ensures reply == replies.outputs(infId)
      ensures trace == old(trace) + [Call.GetOutputs(infId)]
      ensures files == old(files) && stateQueries == old(stateQueries)
    {
      trace := trace + [Call.GetOutputs(infId)];
      reply := replies.outputs(infId);
    }

    /** `paramiko.RSAKey.from_private_key`: whether the key parses. */
    method ParseKey(pkey: string) returns (valid: bool)
      ensures valid == replies.keyValid(pkey)
    {
      valid := replies.keyValid(pkey);
    }

    /** `Connection(...).run(command)`. */
    method RunRemote(host: string, user: string, command: string) returns (reply: CommandReply)
      modifies this
      ensures reply == replies.command(host, user, command)
      ensures trace == old(trace) + [RunCommand(host, user, command)]
      ensures files == old(files) && stateQueries == old(stateQueries)
    {
      trace := trace + [RunCommand(host, user, command)];
      reply := replies.command(host, user, command);
    }

    method Destroy(infId: string) returns (success: bool, err: string)
      modifies this
      ensures (success, err) == replies.destroy(infId)
      ensures trace == old(trace) + [Call.Destroy(infId)]
      ensures files == old(files) && stateQueries == old(stateQueries)
    {
      trace := trace + [Call.Destroy(infId)];
      success, err := replies.destroy(infId).0, replies.destroy(infId).1;
    }
  }

  class VOTest {
    const vo: string
    const site: string
    const token: string

    constructor(vo: string, site: string, token: string)
      ensures this.vo == vo && this.site == site && this.token == token
    {
      this.vo := vo;
      this.site := site;
      this.token := token;
    }

    method CreateAuthFile(w: World, path: string)
      modifies w
      ensures w.files == old(w.files)[path := AuthFileContent(token, site, vo)]
      ensures w.trace == old(w.trace) && w.stateQueries == old(w.stateQueries)
    {
      w.WriteFile(path, AuthFileContent(token, site, vo));
    }

    /** Afterwards the file is absent; on an absent file nothing changes. */
    method DeleteAuthFile(w: World, path: string)
      modifies w
      ensures w.files == old(w.files) - {path}
      ensures path !in old(w.files) ==> w.files == old(w.files)
      ensures w.trace == old(w.trace) && w.stateQueries == old(w.stateQueries)
    {
      w.RemoveFile(path);
    }

    /** Returns the message of the `VOTestException` raised, if any. */
    method DestroyTestVm(w: World, infId: string) returns (error: Option<string>)
      modifies w
      ensures var d := DestroyVm(Identity(vo, site, token), w.replies, infId, old(w.files));
              error == d.error && w.trace == old(w.trace) + d.calls && w.files == d.files
      ensures w.stateQueries == old(w.stateQueries)
    {
      CreateAuthFile(w, AuthFile);
      var success, err := w.Destroy(infId);
      if !success {
        return Some(err);
      }
      DeleteAuthFile(w, AuthFile);
      error := None;
    }

    method LaunchTestVm(w: World, command: string) returns (outcome: Outcome)
      modifies w
      ensures var run := Launch(Identity(vo, site, token), RenderTemplate(site, vo), w.replies, command,
                                old(w.files), old(w.stateQueries));
              outcome == run.outcome && w.trace == old(w.trace) + run.calls
              && w.files == run.files && w.stateQueries == run.queries
    {
      outcome := LaunchFrom(w, RenderTemplate(site, vo), command);
    }

    /** `launch_test_vm` once `create_vm_tosca_template` has given `template`. */
    method LaunchFrom(w: World, template: string, command: string) returns (outcome: Outcome)
      modifies w
      ensures var run := Launch(Identity(vo, site, token), template, w.replies, command,
                                old(w.files), old(w.stateQueries));
              outcome == run.outcome && w.trace == old(w.trace) + run.calls
              && w.files == run.files && w.stateQueries == run.queries
    {
      ghost var id, trace0 := Identity(vo, site, token), w.trace;
      CreateAuthFile(w, AuthFile);
      var success, infId := w.Create(template);
      if !success {
        return Raised(VOTestError(infId));
      }
      ghost var written := w.files;
      var state, attempts := PollState(w, infId);
      ghost var waited := [Create(template)] + PollCalls(infId, attempts - 1);
      assert w.trace == trace0 + waited;
      if state != Configured {
        outcome := GiveUpVm(w, infId);
        ghost var t := GiveUp(id, w.replies, infId, written);
        assert w.trace == trace0 + (waited + t.calls);
      } else {
        outcome := ProbeVm(w, infId, command);
        ghost var t := Probe(id, w.replies, infId, command, written);
        assert w.trace == trace0 + (waited + t.calls);
      }
    }

    /** Lines 86-94 of `launch_test_vm`: wait until the VM is configured, at most `MaxNumChecks` times. */
    method PollState(w: World, infId: string) returns (state: string, attempts: nat)
      modifies w
      ensures Poll(state, attempts, w.stateQueries) == LaunchPoll(w.replies, old(w.stateQueries))
      ensures w.trace == old(w.trace) + PollCalls(infId, attempts - 1)
      ensures w.files == old(w.files)
    {
      ghost var q0, t0 := w.stateQueries, w.trace;
      state := "pending";
      attempts := 1;
      while state != Configured && attempts <= MaxNumChecks
        invariant 1 <= attempts <= MaxNumChecks + 1
        invariant w.stateQueries == q0 + attempts - 1
        invariant w.trace == t0 + PollCalls(infId, attempts - 1)
        invariant w.files == old(w.files)
        invariant PollFrom(w.replies.stateAt, w.stateQueries, state, attempts)
               == PollFrom(w.replies.stateAt, q0, "pending", 1)
        decreases MaxNumChecks + 1 - attempts
      {
        w.Sleep(10);
        state := w.GetState(infId);
        attempts := attempts + 1;
      }
    }

    /** Lines 96-105 of `launch_test_vm`. */
    method GiveUpVm(w: World, infId: string) returns (outcome: Outcome)
      modifies w
      ensures var t := GiveUp(Identity(vo, site, token), w.replies, infId, old(w.files));
              outcome == t.outcome && w.trace == old(w.trace) + t.calls && w.files == t.files
      ensures w.stateQueries == old(w.stateQueries)
    {
      w.GetContMsg(infId);
      var error := DestroyTestVm(w, infId);
      outcome := if error.None? then Returned(false) else Raised(VOTestError(error.value));
    }

    /** Lines 107-147 of `launch_test_vm`. */
    method ProbeVm(w: World, infId: string, command: string) returns (outcome: Outcome)
      modifies w
      ensures var t := Probe(Identity(vo, site, token), w.replies, infId, command, old(w.files));
              outcome == t.outcome && w.trace == old(w.trace) + t.calls && w.files == t.files
      ensures w.stateQueries == old(w.stateQueries)
    {
      ghost var trace0 := w.trace;
      var access := ReadAccess(w, infId);
      if access.NoAccess? {
        return Raised(access.failure);
      }
      ghost var failed := w.replies.command(access.host, access.user, command).SessionError?;
      outcome := RunAndDestroy(w, infId, access.host, access.user, command);
      assert w.trace == trace0 + SshCalls(infId, access.host, access.user, command, failed);
    }

    /** Lines 107-122 of `launch_test_vm`: wait, read the outputs, parse the key. */
    method ReadAccess(w: World, infId: string) returns (access: Access)
      modifies w
      ensures access == SshAccess(w.replies.outputs(infId), w.replies.keyValid)
      ensures w.trace == old(w.trace) + [Call.Sleep(60), Call.GetOutputs(infId)]
      ensures w.files == old(w.files) && w.stateQueries == old(w.stateQueries)
    {
      w.Sleep(60);
      var reply := w.GetOutputs(infId);
      if reply.OutputsFailed? {
        return NoAccess(VOTestError("False " + reply.detail));
      }
      if reply.nodeIp.None? {
        return NoAccess(KeyError("node_ip"));
      }
      if reply.nodeCreds.None? {
        return NoAccess(KeyError("node_creds"));
      }
      var host := reply.nodeIp.value;
      if "user" !in reply.nodeCreds.value {
        return NoAccess(KeyError("user"));
      }
      var user := reply.nodeCreds.value["user"];
      if "token" !in reply.nodeCreds.value {
        return NoAccess(KeyError("token"));
      }
      var pkey := reply.nodeCreds.value["token"];
      var valid := w.ParseKey(pkey);
      if !valid {
        return NoAccess(InvalidKey);
      }
      access := Access(host, user, pkey);
    }

    /** Lines 123-147 of `launch_test_vm`: try the command, ask why if it raised, finally destroy. */
    method RunAndDestroy(w: World, infId: string, host: string, user: string, command: string)
      returns (outcome: Outcome)
      modifies w
      ensures var d := DestroyVm(Identity(vo, site, token), w.replies, infId, old(w.files));
              var failed := w.replies.command(host, user, command).SessionError?;
              outcome == Finish(true, d) && w.files == d.files
              && w.trace == old(w.trace) + [RunCommand(host, user, command)]
                 + (if failed then [QueryContMsg(infId)] else []) + [Call.Destroy(infId)]
      ensures w.stateQueries == old(w.stateQueries)
    {
      var result := w.RunRemote(host, user, command);
      if result.SessionError? {
        w.GetContMsg(infId);
      }
      var error := DestroyTestVm(w, infId);
      outcome := if error.None? then Returned(true) else Raised(VOTestError(error.value));
    }
  }
}
