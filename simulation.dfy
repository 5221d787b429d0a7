/** `runSimulation` (App.js:41-125): two conversation histories advanced in
    lock-step against the completion service. The pure functions `Step` and
    `Iterate` say what the run computes; the class `App` holds the component
    state the source updates and runs the loop itself. */
module Simulation {
  import opened Wrappers
  import opened Gemini
  import opened Transcript

  /** A number as `parseInt` leaves the iterations field: an integer, or NaN
      when the field does not parse. */
  datatype JsNumber = Int(n: int) | NaN

  /** JavaScript's `i < iterations`: every comparison with NaN is false. */
  predicate Below(i: int, iterations: JsNumber) {
    iterations.Int? && i < iterations.n
  }

  /** How many times `for (let i = 0; i < iterations; i++)` runs: max(0, n),
      and no time at all for NaN. */
  function Rounds(iterations: JsNumber): (n: nat)
    ensures forall i: nat :: Below(i, iterations) <==> i < n
  {
    if iterations.Int? && iterations.n > 0 then iterations.n else 0
  }

  const PlayerHeader: string := "The players system instruction is:\n\nBEGIN_PLAYER_SI:\n"
  const PlayerFooter: string := "\nEND_PLAYER_SI"

  /** The world's system instruction: the world prompt followed by the robot
      prompt in a delimited block (App.js:81-85). */
  function WorldInstruction(worldPrompt: string, robotPrompt: string): string {
    worldPrompt + PlayerHeader + robotPrompt + PlayerFooter
  }

  /** Reads the robot prompt back out of a world instruction built on
      `worldPrompt`, if it is one. */
  function PlayerInstruction(worldPrompt: string, instruction: string): Option<string> {
    var o := |worldPrompt| + |PlayerHeader|;
    if o + |PlayerFooter| <= |instruction| && instruction[..|worldPrompt|] == worldPrompt &&
       instruction[|worldPrompt|..o] == PlayerHeader &&
       instruction[|instruction| - |PlayerFooter|..] == PlayerFooter
    then Some(instruction[o..|instruction| - |PlayerFooter|])
    else None
  }

  /** The world instruction holds the robot prompt verbatim, right after the
      world prompt and the header, and nothing else after it but the footer. */
  lemma WorldInstructionEmbedsRobotPrompt(worldPrompt: string, robotPrompt: string)
    ensures var s := WorldInstruction(worldPrompt, robotPrompt);
      var o := |worldPrompt| + |PlayerHeader|;
      |s| == o + |robotPrompt| + |PlayerFooter| &&
      s[..|worldPrompt|] == worldPrompt && s[|worldPrompt|..o] == PlayerHeader &&
      s[o..o + |robotPrompt|] == robotPrompt && s[o + |robotPrompt|..] == PlayerFooter
  {
  }

  /** The world instruction is built from the two prompts alone and loses
      neither: the robot prompt is recovered from it exactly. */
  lemma PlayerInstructionRoundTrip(worldPrompt: string, robotPrompt: string)
    ensures PlayerInstruction(worldPrompt, WorldInstruction(worldPrompt, robotPrompt)) == Some(robotPrompt)
  {
    WorldInstructionEmbedsRobotPrompt(worldPrompt, robotPrompt);
  }

  /** The completion service: the reply to the n-th call of a run. */
  type Service = (nat, Call) -> HttpResult

  /** One completion: `generateContent` followed by the reads of
      `candidates[0].content` and `parts[0].text`. */
  function Complete(service: Service, n: nat, call: Call): Result<(Content, JsText), Error> {
    match GenerateContent(service(n, call))
    case Failure(e) => Failure(e)
    case Success(data) => ReadReply(data)
  }

  /** The outcome of one completion as the loop sees it: the reply's content
      and its first text, or the error thrown while asking or reading. */
  type Ask = (nat, Call) -> Result<(Content, JsText), Error>

  /** Asking a given service. */
  function Asking(service: Service): Ask {
    (n: nat, call: Call) => Complete(service, n, call)
  }

  /** `ask` gives what asking `service` gives, call for call. */
  ghost predicate Answers(ask: Ask, service: Service) {
    forall n: nat, call: Call {:trigger Complete(service, n, call)} :: ask(n, call) == Complete(service, n, call)
  }

  /** What one run reads from the component state. */
  datatype Config = Config(apiKey: string, robotPrompt: string, worldPrompt: string,
                           model: string, iterations: JsNumber)

  /** What every request of a run shares, fixed before the loop starts: the
      model, the key, each side's system instruction and the safety
      settings (App.js:50-89). */
  datatype Setup = Setup(model: string, apiKey: string, agentInstruction: string,
                         worldInstruction: string, safetySettings: seq<SafetySetting>)

  /** The setup `runSimulation` builds from the component state: the agent
      is instructed with the robot prompt, the world with the world
      instruction, and both share one safety-settings list. */
  function Prepare(cfg: Config): (setup: Setup)
    ensures setup.model == cfg.model && setup.apiKey == cfg.apiKey
    ensures setup.agentInstruction == cfg.robotPrompt
    ensures PlayerInstruction(cfg.worldPrompt, setup.worldInstruction) == Some(cfg.robotPrompt)
    ensures setup.safetySettings == SafetySettings
  {
    PlayerInstructionRoundTrip(cfg.worldPrompt, cfg.robotPrompt);
    Setup(cfg.model, cfg.apiKey, cfg.robotPrompt, WorldInstruction(cfg.worldPrompt, cfg.robotPrompt),
          SafetySettings)
  }

  /** The agent history's only entry at the start (App.js:54-59). */
  const Begin: Content := UserTurn(Str("BEGIN"))

  /** The request `generateContent(agentReq)` sends with history `agent`. */
  function AgentCall(setup: Setup, agent: seq<Content>): Call {
    Call(setup.model, setup.apiKey, RequestBody(setup.agentInstruction, agent, setup.safetySettings))
  }

  /** The request `generateContent(worldReq)` sends with history `world`. */
  function WorldCall(setup: Setup, world: seq<Content>): Call {
    Call(setup.model, setup.apiKey, RequestBody(setup.worldInstruction, world, setup.safetySettings))
  }

  /** The state of a run: both histories, the records, every request sent so
      far, and the error that ended the run, if one did. */
  datatype Progress = Progress(agent: seq<Content>, world: seq<Content>, results: seq<TurnRecord>,
                               calls: seq<Call>, failure: Option<Error>)

  /** The state when the loop starts (App.js:46-48, 50-89). */
  function Start(): Progress {
    Progress([Begin], [], [], [], None)
  }

  /** Iteration i + 1 of the loop body (App.js:94-116). A failure ends it
      where it happens: after the agent's call nothing is pushed; after the
      world's call the agent's turn is already in both histories. */
  function Step(setup: Setup, ask: Ask, i: nat, p: Progress): Progress
    requires p.failure.None?
  {
    var agentCall := AgentCall(setup, p.agent);
    match ask(|p.calls|, agentCall)
    case Failure(e) => p.(calls := p.calls + [agentCall], failure := Some(e))
    case Success((agentContent, agentText)) =>
      var agent := p.agent + [agentContent];
      var world := p.world + [UserTurn(agentText)];
      var worldCall := WorldCall(setup, world);
      var calls := p.calls + [agentCall, worldCall];
      match ask(|p.calls| + 1, worldCall)
      case Failure(e) => Progress(agent, world, p.results, calls, Some(e))
      case Success((worldContent, worldText)) =>
        Progress(agent + [UserTurn(worldText)], world + [worldContent],
                 p.results + [TurnRecord(i + 1, agentText, worldText)], calls, None)
  }

  /** A round only appends: on success two turns to each history, one
      record and two requests; on failure no record and one or two
      requests. */
  lemma StepAppends(setup: Setup, ask: Ask, i: nat, p: Progress)
    requires p.failure.None?
    ensures var q := Step(setup, ask, i, p);
      p.agent <= q.agent && p.world <= q.world && p.results <= q.results && p.calls <= q.calls &&
      (q.failure.None? ==>
        |q.agent| == |p.agent| + 2 && |q.world| == |p.world| + 2 &&
        |q.results| == |p.results| + 1 && |q.calls| == |p.calls| + 2) &&
      (q.failure.Some? ==>
        q.results == p.results && (|q.calls| == |p.calls| + 1 || |q.calls| == |p.calls| + 2))
  {
  }

  /** The state after k rounds of the loop, or at the failure that ended it. */
  function Iterate(setup: Setup, ask: Ask, k: nat): Progress {
    if k == 0 then Start()
    else
      var p := Iterate(setup, ask, k - 1);
      if p.failure.Some? then p else Step(setup, ask, k - 1, p)
  }

  /** After k completed rounds the agent history has 1 + 2k entries, the
      world history 2k, the transcript k records, and 2k requests were sent. */
  lemma {:induction false} IterateCounts(setup: Setup, ask: Ask, k: nat)
    ensures var p := Iterate(setup, ask, k);
      p.failure.None? ==>
        |p.agent| == 1 + 2 * k && |p.world| == 2 * k && |p.results| == k && |p.calls| == 2 * k
  {
    if k > 0 {
      IterateCounts(setup, ask, k - 1);
    }
  }

  /** Every step only appends: earlier entries of the histories, the
      transcript and the requests sent are never changed. */
  lemma {:induction false} IterateExtends(setup: Setup, ask: Ask, k: nat, m: nat)
    requires k <= m
    ensures var p, q := Iterate(setup, ask, k), Iterate(setup, ask, m);
      p.agent <= q.agent && p.world <= q.world && p.results <= q.results && p.calls <= q.calls
  {
    if k < m {
      IterateExtends(setup, ask, k, m - 1);
    }
  }

  /** Once a call has failed the run is over: later rounds change nothing and
      send nothing. */
  lemma {:induction false} FailureIsFinal(setup: Setup, ask: Ask, k: nat, m: nat)
    requires k <= m
    requires Iterate(setup, ask, k).failure.Some?
    ensures Iterate(setup, ask, m) == Iterate(setup, ask, k)
  {
    if k < m {
      FailureIsFinal(setup, ask, k, m - 1);
    }
  }

  /** A run that failed did so in round n + 1, where n is the number of
      records it kept: those are exactly the records of the n rounds before,
      the failing round sent one or two requests, and no round after it sent
      any. */
  lemma {:induction false} FailedRound(setup: Setup, ask: Ask, k: nat)
    requires Iterate(setup, ask, k).failure.Some?
    ensures var p := Iterate(setup, ask, k);
      var n := |p.results|;
      var before := Iterate(setup, ask, n);
      n < k && before.failure.None? && p.results == before.results &&
      Iterate(setup, ask, n + 1) == p &&
      before.calls <= p.calls && (|p.calls| == 2 * n + 1 || |p.calls| == 2 * n + 2)
  {
    var p := Iterate(setup, ask, k);
    var prev := Iterate(setup, ask, k - 1);
    if prev.failure.Some? {
      assert p == prev;
      FailedRound(setup, ask, k - 1);
    } else {
      assert p == Step(setup, ask, k - 1, prev);
      IterateCounts(setup, ask, k - 1);
      StepAppends(setup, ask, k - 1, prev);
      assert |p.results| == k - 1;
    }
  }

  /** What round j + 1 left behind: the record numbered j + 1; the agent's
      request carried the agent history up to that round and its reply was
      stored whole in the agent history and as a user turn holding its text
      in the world history; likewise the world's request and reply, the
      other way round. */
  predicate RoundLogged(setup: Setup, ask: Ask, p: Progress, j: nat) {
    2 * j + 2 < |p.agent| && 2 * j + 1 < |p.world| && j < |p.results| && 2 * j + 1 < |p.calls| &&
    var r := p.results[j];
    r.iteration == j + 1 &&
    p.calls[2 * j] == AgentCall(setup, p.agent[..2 * j + 1]) &&
    ask(2 * j, p.calls[2 * j]) == Success((p.agent[2 * j + 1], r.agent)) &&
    p.world[2 * j] == UserTurn(r.agent) &&
    p.calls[2 * j + 1] == WorldCall(setup, p.world[..2 * j + 1]) &&
    ask(2 * j + 1, p.calls[2 * j + 1]) == Success((p.world[2 * j + 1], r.world)) &&
    p.agent[2 * j + 2] == UserTurn(r.world)
  }

  lemma RoundLoggedKept(setup: Setup, ask: Ask, p: Progress, q: Progress, j: nat)
    requires RoundLogged(setup, ask, p, j)
    requires p.agent <= q.agent && p.world <= q.world && p.results <= q.results && p.calls <= q.calls
    ensures RoundLogged(setup, ask, q, j)
  {
    assert q.agent[..2 * j + 1] == p.agent[..2 * j + 1];
    assert q.world[..2 * j + 1] == p.world[..2 * j + 1];
  }

  lemma RoundsLoggedKept(setup: Setup, ask: Ask, p: Progress, q: Progress, k: nat)
    requires forall j :: 0 <= j < k ==> RoundLogged(setup, ask, p, j)
    requires p.agent <= q.agent && p.world <= q.world && p.results <= q.results && p.calls <= q.calls
    ensures forall j :: 0 <= j < k ==> RoundLogged(setup, ask, q, j)
  {
    forall j | 0 <= j < k
      ensures RoundLogged(setup, ask, q, j)
    {
      RoundLoggedKept(setup, ask, p, q, j);
    }
  }

  /** A successful round logs itself at its own index. */
  lemma StepLogsRound(setup: Setup, ask: Ask, i: nat, p: Progress)
    requires p.failure.None?
    requires |p.agent| == 1 + 2 * i && |p.world| == 2 * i && |p.results| == i && |p.calls| == 2 * i
    requires Step(setup, ask, i, p).failure.None?
    ensures RoundLogged(setup, ask, Step(setup, ask, i, p), i)
  {
    var q := Step(setup, ask, i, p);
    assert q.agent[..2 * i + 1] == p.agent;
    assert q.world[..2 * i + 1] == q.world[..2 * i] + [q.world[2 * i]];
  }

  /** A successful round keeps what the earlier rounds logged and logs itself. */
  lemma StepKeepsRecords(setup: Setup, ask: Ask, i: nat, p: Progress)
    requires p.failure.None?
    requires |p.agent| == 1 + 2 * i && |p.world| == 2 * i && |p.results| == i && |p.calls| == 2 * i
    requires p.agent[0] == Begin && forall j :: 0 <= j < i ==> RoundLogged(setup, ask, p, j)
    ensures var q := Step(setup, ask, i, p);
      q.failure.None? ==>
        q.agent[0] == Begin && forall j :: 0 <= j < i + 1 ==> RoundLogged(setup, ask, q, j)
  {
    var q := Step(setup, ask, i, p);
    if q.failure.None? {
      StepAppends(setup, ask, i, p);
      RoundsLoggedKept(setup, ask, p, q, i);
      StepLogsRound(setup, ask, i, p);
      assert q.agent[0] == p.agent[0];
    }
  }

  /** After k completed rounds the agent history still starts with "BEGIN"
      and every round is logged in the histories, the requests and the
      transcript as `RoundLogged` says. */
  lemma {:induction false} IterateRecords(setup: Setup, ask: Ask, k: nat)
    requires Iterate(setup, ask, k).failure.None?
    ensures var p := Iterate(setup, ask, k);
      p.agent[0] == Begin && forall j :: 0 <= j < k ==> RoundLogged(setup, ask, p, j)
  {
    if k > 0 {
      var prev := Iterate(setup, ask, k - 1);
      IterateRecords(setup, ask, k - 1);
      IterateCounts(setup, ask, k - 1);
      StepKeepsRecords(setup, ask, k - 1, prev);
    }
  }

  /** A run of n rounds in which every call succeeded produces n records,
      numbered 1, 2, ..., n in order. */
  lemma CompletedRun(setup: Setup, ask: Ask, n: nat)
    ensures var p := Iterate(setup, ask, n);
      p.failure.None? ==>
        |p.results| == n && forall j :: 0 <= j < n ==> p.results[j].iteration == j + 1
  {
    var p := Iterate(setup, ask, n);
    if p.failure.None? {
      IterateCounts(setup, ask, n);
      IterateRecords(setup, ask, n);
      forall j | 0 <= j < n
        ensures p.results[j].iteration == j + 1
      {
        assert RoundLogged(setup, ask, p, j);
      }
    }
  }

  /** The roles of a history alternate user, model, user, ... */
  predicate Alternates(h: seq<Content>) {
    forall j :: 0 <= j < |h| ==> h[j].role == (if j % 2 == 0 then "user" else "model")
  }

  /** The service answers in the model's role whenever its reply can be read. */
  ghost predicate AnswersAsModel(ask: Ask) {
    forall n: nat, c: Call :: ask(n, c).Success? ==> ask(n, c).value.0.role == "model"
  }

  /** Appending a turn in the role its position calls for keeps a history
      alternating. */
  lemma AppendAlternates(h: seq<Content>, c: Content)
    requires Alternates(h)
    requires c.role == (if |h| % 2 == 0 then "user" else "model")
    ensures Alternates(h + [c])
  {
    forall j | 0 <= j < |h| + 1
      ensures (h + [c])[j].role == (if j % 2 == 0 then "user" else "model")
    {
      if j < |h| {
        assert (h + [c])[j] == h[j];
      }
    }
  }

  /** A round keeps both histories alternating, whether it completes or not,
      when the service answers as the model. */
  lemma StepAlternates(setup: Setup, ask: Ask, i: nat, p: Progress)
    requires AnswersAsModel(ask)
    requires p.failure.None? && Alternates(p.agent) && Alternates(p.world)
    requires |p.agent| % 2 == 1 && |p.world| % 2 == 0
    ensures Alternates(Step(setup, ask, i, p).agent) && Alternates(Step(setup, ask, i, p).world)
  {
    var agentCall := AgentCall(setup, p.agent);
    var agentReply := ask(|p.calls|, agentCall);
    if agentReply.Success? {
      var (agentContent, agentText) := agentReply.value;
      AppendAlternates(p.agent, agentContent);
      AppendAlternates(p.world, UserTurn(agentText));
      var agent := p.agent + [agentContent];
      var world := p.world + [UserTurn(agentText)];
      var worldReply := ask(|p.calls| + 1, WorldCall(setup, world));
      if worldReply.Success? {
        AppendAlternates(agent, UserTurn(worldReply.value.1));
        AppendAlternates(world, worldReply.value.0);
      }
    }
  }

  /** The source stores the service's own content object, so the histories
      alternate between user and model turns exactly when the service
      answers as the model; then they do, at every point of the run. */
  lemma {:induction false} RolesAlternate(setup: Setup, ask: Ask, k: nat)
    requires AnswersAsModel(ask)
    ensures Alternates(Iterate(setup, ask, k).agent) && Alternates(Iterate(setup, ask, k).world)
  {
    if k > 0 {
      var prev := Iterate(setup, ask, k - 1);
      RolesAlternate(setup, ask, k - 1);
      if prev.failure.None? {
        IterateCounts(setup, ask, k - 1);
        StepAlternates(setup, ask, k - 1, prev);
      }
    }
  }

  const MissingKeyMessage: string := "Please enter a Gemini API key"

  /** The text `setError` receives from the catch block, if anything failed. */
  function ErrorText(failure: Option<Error>): (text: Option<string>)
    ensures text.Some? <==> failure.Some?
    ensures text.Some? ==> |text.value| >= 7 && text.value[..7] == "Error: "
  {
    match failure
    case None => None
    case Some(e) => Some("Error: " + Message(e))
  }

  /** The error shown for a reply that was not ok tells its status and body
      apart: two replies that show the same error had the same status and
      the same body. */
  lemma ApiErrorTextDetermines(s1: nat, b1: string, s2: nat, b2: string)
    requires ErrorText(Some(ApiError(s1, b1))) == ErrorText(Some(ApiError(s2, b2)))
    ensures s1 == s2 && b1 == b2
  {
    var t := ErrorText(Some(ApiError(s1, b1))).value;
    assert t[7..] == Message(ApiError(s1, b1));
    assert t == ErrorText(Some(ApiError(s2, b2))).value;
    assert t[7..] == Message(ApiError(s2, b2));
    ApiErrorMessageDetermines(s1, b1, s2, b2);
  }

  /** The component's state (App.js:5-12). */
  class App {
    var apiKey: string
    var robotPrompt: string
    var worldPrompt: string
    var model: string
    var iterations: JsNumber
    var results: seq<TurnRecord>
    var isRunning: bool
    var error: Option<string>

    /** The initial state, given the two default prompts. */
    constructor (defaultRobotPrompt: string, defaultWorldPrompt: string)
      ensures apiKey == "" && robotPrompt == defaultRobotPrompt && worldPrompt == defaultWorldPrompt
      ensures model == "gemini-1.5-pro" && iterations == Int(20)
      ensures results == [] && !isRunning && error == None
    {
      apiKey, robotPrompt, worldPrompt := "", defaultRobotPrompt, defaultWorldPrompt;
      model, iterations := "gemini-1.5-pro", Int(20);
      results, isRunning, error := [], false, None;
    }

    /** The inputs a run reads. */
    function Settings(): Config
      reads this`apiKey, this`robotPrompt, this`worldPrompt, this`model, this`iterations
    {
      Config(apiKey, robotPrompt, worldPrompt, model, iterations)
    }

    /** `downloadResults`' document for the current state. */
    function DownloadResults(): string
      reads this`robotPrompt, this`worldPrompt, this`results
    {
      Document(Page, robotPrompt, worldPrompt, results)
    }

    /** The two requests are the ones `runSimulation` builds for `setup`
        from this state (App.js:50-89). */
    predicate Prepared(setup: Setup, agentReq: Request, worldReq: Request)
      reads this`model, this`apiKey
    {
      setup.model == model && setup.apiKey == apiKey &&
      agentReq.systemInstruction == setup.agentInstruction &&
      worldReq.systemInstruction == setup.worldInstruction &&
      agentReq.safetySettings == setup.safetySettings && worldReq.safetySettings == setup.safetySettings
    }

    /** One pass of the loop body (App.js:92-117), round i + 1: from the
        state after i rounds, both requests, the records and the requests sent
        end in the state after i + 1 rounds, and a failure is returned where
        the source throws. */
    method Round(service: Service, ghost ask: Ask, ghost setup: Setup, i: nat, agentReq: Request, worldReq: Request,
                 calls: seq<Call>)
      returns (sent: seq<Call>, failure: Option<Error>)
      requires Answers(ask, service) && agentReq != worldReq && Prepared(setup, agentReq, worldReq)
      requires Iterate(setup, ask, i) ==
               Progress(agentReq.contents, worldReq.contents, results, calls, None)
      modifies this`results, agentReq, worldReq
      ensures Iterate(setup, ask, i + 1) ==
              Progress(agentReq.contents, worldReq.contents, results, sent, failure)
    {
      failure := None;
      var agentCall := Call(model, apiKey, agentReq.Body());
      var agentReply := Complete(service, |calls|, agentCall);
      sent := calls + [agentCall];
      if agentReply.Failure? {
        return sent, Some(agentReply.error);
      }
      var (agentContent, agentText) := agentReply.value;
      agentReq.Push(agentContent);
      worldReq.Push(UserTurn(agentText));
      var worldCall := Call(model, apiKey, worldReq.Body());
      var worldReply := Complete(service, |sent|, worldCall);
      sent := sent + [worldCall];
      if worldReply.Failure? {
        return sent, Some(worldReply.error);
      }
      var (worldContent, worldText) := worldReply.value;
      agentReq.Push(UserTurn(worldText));
      worldReq.Push(worldContent);
      results := results + [TurnRecord(i + 1, agentText, worldText)];
    }

    /** The `for` loop of `runSimulation` (App.js:91-118) from a fresh start:
        it stops at the first failure and otherwise runs `iterations` rounds;
        either way it ends where `Iterate` does. */
    method RunRounds(service: Service, ghost ask: Ask, ghost setup: Setup, agentReq: Request, worldReq: Request)
      returns (calls: seq<Call>, failure: Option<Error>)
      requires Answers(ask, service) && agentReq != worldReq && Prepared(setup, agentReq, worldReq)
      requires isRunning && error == None
      requires agentReq.contents == [Begin] && worldReq.contents == [] && results == []
      modifies this`results, agentReq, worldReq
      ensures var p := Iterate(setup, ask, Rounds(iterations));
        results == p.results && calls == p.calls && failure == p.failure &&
        agentReq.contents == p.agent && worldReq.contents == p.world
    {
      ghost var n := Rounds(iterations);
      calls := [];
      failure := None;
      var i := 0;
      while Below(i, iterations) && failure.None?
        invariant 0 <= i <= n
        invariant Iterate(setup, ask, i) ==
                  Progress(agentReq.contents, worldReq.contents, results, calls, failure)
        decreases n - i
      {
        calls, failure := Round(service, ask, setup, i, agentReq, worldReq, calls);
        i := i + 1;
      }
      if failure.Some? {
        FailureIsFinal(setup, ask, i, n);
      }
    }

    /** `runSimulation`. Returns the requests sent to the service, in order.
        Without a key only the error is set and nothing is sent; otherwise
        the results, error and running flag end as `Iterate` says. */
    method RunSimulation(service: Service) returns (calls: seq<Call>)
      requires !isRunning
      modifies this`results, this`isRunning, this`error
      ensures apiKey == "" ==>
        results == old(results) && isRunning == old(isRunning) &&
        error == Some(MissingKeyMessage) && calls == []
      ensures apiKey != "" ==>
        var p := Iterate(Prepare(Settings()), Asking(service), Rounds(iterations));
        results == p.results && calls == p.calls && !isRunning && error == ErrorText(p.failure)
    {
      if apiKey == "" {
        error := Some(MissingKeyMessage);
        return [];
      }
      isRunning := true;
      error := None;
      results := [];
      var agentReq := new Request(robotPrompt, [Begin], SafetySettings);
      var worldReq := new Request(WorldInstruction(worldPrompt, robotPrompt), [], agentReq.safetySettings);
      ghost var ask, setup := Asking(service), Prepare(Settings());
      var failure;
      calls, failure := RunRounds(service, ask, setup, agentReq, worldReq);
      if failure.Some? {
        error := ErrorText(failure);
      }
      isRunning := false;
    }
  }
}
