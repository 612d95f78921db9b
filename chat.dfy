/** The chat page: the keyword classifier, the canned responses, and the
    message store that a send and its timer callbacks update. */
module Chat {
  import opened Text

  datatype Option<T> = None | Some(value: T)

  datatype Role = User | Assistant | System
  datatype TaskType = Pentesting | Recon | Rca | Analysis | Question
  datatype Status = Running | Completed | Failed

  /** The progress block of a simulated task. */
  datatype TaskExecution = TaskExecution(phase: string, progress: int, currentAction: string, logs: seq<string>)

  /** The result card attached when a simulated task completes. */
  datatype Results = Results(vulnerabilities: int, hostsScanned: int, findings: seq<string>)

  /** A chat message; the creation timestamp is not modelled. */
  datatype Message = Message(
    id: string,
    role: Role,
    content: string,
    taskType: Option<TaskType>,
    status: Option<Status>,
    taskExecution: Option<TaskExecution>,
    results: Option<Results>)

  // ---------------------------------------------------------------------------
  // Classifier

  /** `determineTaskType`: case-insensitive keyword search, first match wins. */
  function Classify(input: string): TaskType
  {
    var lower := Lower(input);
    if Contains(lower, "pentest") || Contains(lower, "penetration") then Pentesting
    else if Contains(lower, "recon") || Contains(lower, "reconnaissance") then Recon
    else if Contains(lower, "rca") || Contains(lower, "root cause") then Rca
    else if Contains(lower, "analyze") || Contains(lower, "analysis") then Analysis
    else Question
  }

  /** A reference formulation of the classifier: a keyword table in priority
      order, scanned for the first row with a keyword in the text. */
  const Rules: seq<(seq<string>, TaskType)> := [
    (["pentest", "penetration"], Pentesting),
    (["recon", "reconnaissance"], Recon),
    (["rca", "root cause"], Rca),
    (["analyze", "analysis"], Analysis)
  ]

  predicate MentionsAny(text: string, keywords: seq<string>)
  {
    exists k :: 0 <= k < |keywords| && Contains(text, keywords[k])
  }

  function FirstMatch(text: string, rules: seq<(seq<string>, TaskType)>): TaskType
  {
    if rules == [] then Question
    else if MentionsAny(text, rules[0].0) then rules[0].1
    else FirstMatch(text, rules[1..])
  }

  lemma MentionsPair(text: string, a: string, b: string)
    ensures MentionsAny(text, [a, b]) <==> Contains(text, a) || Contains(text, b)
  {
    if Contains(text, a) { assert Contains(text, [a, b][0]); }
    if Contains(text, b) { assert Contains(text, [a, b][1]); }
  }

  /** The classifier is the first-match scan of the keyword table over the
      lower-cased input. */
  lemma ClassifyIsFirstMatch(input: string)
    ensures Classify(input) == FirstMatch(Lower(input), Rules)
  {
    var l := Lower(input);
    MentionsPair(l, "pentest", "penetration");
    MentionsPair(l, "recon", "reconnaissance");
    MentionsPair(l, "rca", "root cause");
    MentionsPair(l, "analyze", "analysis");
    var r1 := Rules[1..];
    var r2 := r1[1..];
    var r3 := r2[1..];
    assert Rules[0] == (["pentest", "penetration"], Pentesting);
    assert r1[0] == (["recon", "reconnaissance"], Recon);
    assert r2[0] == (["rca", "root cause"], Rca);
    assert r3[0] == (["analyze", "analysis"], Analysis);
    assert r3[1..] == [];
    assert FirstMatch(l, r3) == if MentionsAny(l, r3[0].0) then Analysis else Question;
    assert FirstMatch(l, r2) == if MentionsAny(l, r2[0].0) then Rca else FirstMatch(l, r3);
    assert FirstMatch(l, r1) == if MentionsAny(l, r1[0].0) then Recon else FirstMatch(l, r2);
  }

  /** Each outcome, stated by which keyword groups occur; both directions. */
  lemma ClassifyCases(input: string)
    ensures var l := Lower(input);
      var pen := Contains(l, "pentest") || Contains(l, "penetration");
      var rec := Contains(l, "recon") || Contains(l, "reconnaissance");
      var rca := Contains(l, "rca") || Contains(l, "root cause");
      var ana := Contains(l, "analyze") || Contains(l, "analysis");
      && (Classify(input) == Pentesting <==> pen)
      && (Classify(input) == Recon <==> !pen && rec)
      && (Classify(input) == Rca <==> !pen && !rec && rca)
      && (Classify(input) == Analysis <==> !pen && !rec && !rca && ana)
      && (Classify(input) == Question <==> !pen && !rec && !rca && !ana)
  {
  }

  /** A pentest keyword anywhere in the text decides the category, whatever
      else surrounds it. */
  lemma PentestWins(before: string, s: string, after: string)
    requires Contains(Lower(s), "pentest") || Contains(Lower(s), "penetration")
    ensures Classify(before + s + after) == Pentesting
  {
    LowerAppend(before + s, after);
    LowerAppend(before, s);
    if Contains(Lower(s), "pentest") {
      ContainsInside(Lower(before), Lower(s), Lower(after), "pentest");
    } else {
      ContainsInside(Lower(before), Lower(s), Lower(after), "penetration");
    }
  }

  /** The classifier ignores case: any two inputs that lower-case alike are
      classified alike. */
  lemma ClassifyIgnoresCase(a: string, b: string)
    requires Lower(a) == Lower(b)
    ensures Classify(a) == Classify(b)
    ensures Classify(a) == Classify(Lower(a))
  {
    LowerIdempotent(a);
  }

  /** The second recon keyword never decides anything: every text with
      "reconnaissance" in it also contains "recon". */
  lemma ReconnaissanceImpliesRecon(text: string)
    requires Contains(text, "reconnaissance")
    ensures Contains(text, "recon")
  {
    assert StartsWith("reconnaissance", "recon");
    ContainsTransitive(text, "reconnaissance", "recon");
  }

  // ---------------------------------------------------------------------------
  // Response generator

  /** The canned text for each category. */
  function ResponseFor(t: TaskType): string
  {
    match t
    case Pentesting =>
      "Initiating comprehensive penetration test. I'll execute a multi-phase security assessment covering:\n\n**Test Scope:**\n• Network infrastructure scanning\n• Web application security testing\n• API endpoint vulnerability assessment\n• Authentication & authorization testing\n• SQL injection & XSS detection\n\nMonitoring execution in real-time below..."
    case Recon =>
      "Starting reconnaissance operations. I'll gather intelligence across multiple vectors:\n\n**Reconnaissance Phases:**\n• DNS enumeration and subdomain discovery\n• Port scanning and service identification\n• Technology stack fingerprinting\n• SSL/TLS configuration analysis\n• Exposed credentials scanning\n\nTracking progress in real-time below..."
    case Rca =>
      "Performing root cause analysis on recent critical vulnerabilities:\n\n**Analysis Summary:**\n\n🔴 **Critical: SQL Injection in Authentication Module**\n- Root Cause: Unsanitized user input in login query\n- Attack Vector: POST /api/auth/login\n- Impact: Database access, privilege escalation\n- Recommendation: Implement parameterized queries, input validation\n\n🔴 **Critical: Authentication Bypass**\n- Root Cause: JWT token validation flaw\n- Attack Vector: Modified token payload\n- Impact: Unauthorized access to admin functions\n- Recommendation: Strengthen token validation, implement refresh token rotation\n\nWould you like me to generate remediation tickets for these issues?"
    case Analysis =>
      "I've analyzed your recent security findings. Here's a comprehensive breakdown:\n\n**Vulnerability Distribution:**\n- Critical: 3 vulnerabilities\n- High: 12 vulnerabilities\n- Medium: 18 vulnerabilities\n- Low: 7 vulnerabilities\n\n**Key Concerns:**\n1. Multiple SQL injection vectors in API endpoints\n2. Missing authentication on sensitive routes\n3. Outdated dependencies with known exploits\n4. Weak encryption algorithms in use\n\n**Risk Assessment:**\nOverall Security Posture: **MEDIUM-HIGH RISK**\n\nImmediate action required on critical findings. I recommend starting with the authentication bypass vulnerability as it provides the highest impact for attackers."
    case Question =>
      "I can help you with that. As your security operations assistant, I have access to:\n\n• **Vulnerability Database**: All discovered security issues\n• **Host Inventory**: Complete asset visibility\n• **Scan Results**: Historical and current campaign data\n• **Threat Intelligence**: Latest CVE and exploit information\n\nWhat specific information would you like to know about your security posture?"
  }

  /** `generateResponse`: the canned text of the input's category. */
  function GenerateResponse(input: string): string
  {
    ResponseFor(Classify(input))
  }

  /** The response depends on the input only through its category. */
  lemma ResponseDependsOnlyOnCategory(a: string, b: string)
    requires Classify(a) == Classify(b)
    ensures GenerateResponse(a) == GenerateResponse(b)
  {
  }

  // ---------------------------------------------------------------------------
  // Messages and the simulated run

  const WelcomeText: string :=
    "Welcome to **Aether chat** — your AI-powered security operations assistant. I can help you execute pentesting tasks, perform reconnaissance, analyze vulnerabilities, conduct root cause analysis, and answer questions about your security findings."

  const Welcome: Message := Message("1", System, WelcomeText, None, None, None, None)

  /** Only these two categories start a simulated run. */
  predicate IsTask(t: TaskType)
  {
    t == Pentesting || t == Recon
  }

  const InitExecution: TaskExecution := TaskExecution(
    "Initialization", 15, "Setting up scan environment...",
    ["✓ Validating target hosts", "✓ Loading security modules", "→ Establishing secure connection..."])

  const ScanExecution: TaskExecution := TaskExecution(
    "Scanning", 45, "Performing deep vulnerability scan...",
    ["✓ Port scanning completed (142 ports)", "✓ Service enumeration done",
     "→ Testing for SQL injection vectors...", "→ Analyzing authentication mechanisms..."])

  const DoneExecution: TaskExecution := TaskExecution(
    "Completed", 100, "Generating comprehensive report...",
    ["✓ Vulnerability assessment complete", "✓ Generated detailed findings report",
     "✓ Risk scoring calculated", "✓ Remediation recommendations prepared"])

  const Findings: seq<string> := [
    "SQL Injection vulnerability detected in login form",
    "Missing security headers (CSP, X-Frame-Options)",
    "Outdated SSL/TLS configuration",
    "Exposed sensitive endpoints"]

  /** The result card of a completed run. `vulnDraw` and `hostDraw` stand for
      `Math.floor(Math.random() * 20)` and `Math.floor(Math.random() * 50)`. */
  function RunResults(vulnDraw: nat, hostDraw: nat): (r: Results)
    requires vulnDraw < 20 && hostDraw < 50
    ensures 5 <= r.vulnerabilities <= 24 && 10 <= r.hostsScanned <= 59
    ensures |r.findings| == 4
  {
    Results(vulnDraw + 5, hostDraw + 10, Findings)
  }

  /** One evaluation of the two `Math.random()` calls of a result card,
      already scaled and floored. */
  datatype Draw = Draw(vuln: nat, hosts: nat)

  predicate ValidDraws(draws: seq<Draw>)
  {
    forall i :: 0 <= i < |draws| ==> draws[i].vuln < 20 && draws[i].hosts < 50
  }

  function UserMessage(id: string, text: string): Message
  {
    Message(id, User, text, None, None, None, None)
  }

  /** The assistant message a run starts with. */
  function RunningMessage(id: string, input: string): Message
  {
    Message(id, Assistant, GenerateResponse(input), Some(Classify(input)), Some(Running), Some(InitExecution), None)
  }

  /** The single reply to a non-task input. */
  function ReplyMessage(id: string, input: string): Message
  {
    Message(id, Assistant, GenerateResponse(input), Some(Classify(input)), Some(Completed), None, None)
  }

  /** The two later timer callbacks of a run. */
  datatype Step = Scan | Finish(results: Results)

  /** What one callback does to a message whose id matches. */
  function Advance(m: Message, step: Step): Message
  {
    match step
    case Scan => m.(taskExecution := Some(ScanExecution))
    case Finish(r) => m.(status := Some(Completed), taskExecution := Some(DoneExecution), results := Some(r))
  }

  /** One progress callback applied to the list: every message whose id is
      `id` is advanced, the rest are kept. */
  function RewriteById(ms: seq<Message>, id: string, step: Step): (r: seq<Message>)
    ensures |r| == |ms|
    ensures forall i :: 0 <= i < |ms| && ms[i].id == id ==> r[i] == Advance(ms[i], step)
    ensures forall i :: 0 <= i < |ms| && ms[i].id != id ==> r[i] == ms[i]
  {
    if ms == [] then []
    else [if ms[0].id == id then Advance(ms[0], step) else ms[0]] + RewriteById(ms[1..], id, step)
  }

  /** The completing callback applied to the list. The result card is built
      inside the `map` callback, so every message whose id is `id` gets a
      draw of its own: the one at its position in `draws`. */
  function FinishById(ms: seq<Message>, id: string, draws: seq<Draw>): (r: seq<Message>)
    requires |draws| == |ms| && ValidDraws(draws)
    ensures |r| == |ms|
    ensures forall i :: 0 <= i < |ms| && ms[i].id == id ==>
      r[i] == Advance(ms[i], Finish(RunResults(draws[i].vuln, draws[i].hosts)))
    ensures forall i :: 0 <= i < |ms| && ms[i].id != id ==> r[i] == ms[i]
  {
    if ms == [] then []
    else
      [if ms[0].id == id then Advance(ms[0], Finish(RunResults(draws[0].vuln, draws[0].hosts))) else ms[0]]
      + FinishById(ms[1..], id, draws[1..])
  }

  /** When every position draws the same numbers, the completing callback is
      the uniform rewrite with that one result card. */
  lemma FinishSameDraw(ms: seq<Message>, id: string, draws: seq<Draw>, d: Draw)
    requires |draws| == |ms| && ValidDraws(draws)
    requires forall i :: 0 <= i < |draws| ==> draws[i] == d
    requires d.vuln < 20 && d.hosts < 50
    ensures FinishById(ms, id, draws) == RewriteById(ms, id, Finish(RunResults(d.vuln, d.hosts)))
  {
    var l, r := FinishById(ms, id, draws), RewriteById(ms, id, Finish(RunResults(d.vuln, d.hosts)));
    assert forall i :: 0 <= i < |ms| ==> l[i] == r[i];
  }

  /** A message carrying the run's id gets the card of its own draw. */
  lemma FinishCardOfOwnDraw(ms: seq<Message>, id: string, draws: seq<Draw>, i: nat)
    requires |draws| == |ms| && ValidDraws(draws)
    requires i < |ms| && ms[i].id == id
    ensures FinishById(ms, id, draws)[i].results
            == Some(Results(draws[i].vuln + 5, draws[i].hosts + 10, Findings))
  {
    assert FinishById(ms, id, draws)[i] == Advance(ms[i], Finish(RunResults(draws[i].vuln, draws[i].hosts)));
  }

  /** Two messages carrying the run's id get the cards of their own draws,
      which differ when the draws do. */
  lemma FinishDrawsPerMessage(ms: seq<Message>, id: string, draws: seq<Draw>, i: nat, j: nat)
    requires |draws| == |ms| && ValidDraws(draws)
    requires i < |ms| && j < |ms| && ms[i].id == id && ms[j].id == id
    requires draws[i] != draws[j]
    ensures FinishById(ms, id, draws)[i].results != FinishById(ms, id, draws)[j].results
  {
    FinishCardOfOwnDraw(ms, id, draws, i);
    FinishCardOfOwnDraw(ms, id, draws, j);
  }

  function Ids(ms: seq<Message>): (r: seq<string>)
    ensures |r| == |ms| && forall i :: 0 <= i < |ms| ==> r[i] == ms[i].id
  {
    if ms == [] then [] else [ms[0].id] + Ids(ms[1..])
  }

  /** A rewrite keeps the list's length and order and every message's id,
      role, text and category; it touches nothing when the id is absent. */
  lemma RewriteKeepsIdentity(ms: seq<Message>, id: string, step: Step)
    ensures Ids(RewriteById(ms, id, step)) == Ids(ms)
    ensures forall i :: 0 <= i < |ms| ==>
      var m, m' := ms[i], RewriteById(ms, id, step)[i];
      m'.role == m.role && m'.content == m.content && m'.taskType == m.taskType
    ensures id !in Ids(ms) ==> RewriteById(ms, id, step) == ms
  {
    var r := RewriteById(ms, id, step);
    assert forall i :: 0 <= i < |ms| ==> Ids(r)[i] == Ids(ms)[i];
    if id !in Ids(ms) {
      assert forall i :: 0 <= i < |ms| ==> ms[i].id != id by {
        forall i | 0 <= i < |ms| ensures ms[i].id != id {
          assert Ids(ms)[i] == ms[i].id;
        }
      }
    }
  }

  /** A rewrite distributes over concatenation. */
  lemma RewriteAppend(a: seq<Message>, b: seq<Message>, id: string, step: Step)
    ensures RewriteById(a + b, id, step) == RewriteById(a, id, step) + RewriteById(b, id, step)
  {
    var l, r := RewriteById(a + b, id, step), RewriteById(a, id, step) + RewriteById(b, id, step);
    forall i | 0 <= i < |l| ensures l[i] == r[i] {
      if i < |a| {
        assert (a + b)[i] == a[i];
      } else {
        assert (a + b)[i] == b[i - |a|];
      }
    }
  }

  /** Repeating a callback changes nothing further. */
  lemma RewriteIdempotent(ms: seq<Message>, id: string, step: Step)
    ensures RewriteById(RewriteById(ms, id, step), id, step) == RewriteById(ms, id, step)
  {
  }

  function Progress(m: Message): int
  {
    if m.taskExecution.Some? then m.taskExecution.value.progress else 0
  }

  /** A run, followed through its three callbacks in timer order, with a run id
      that no earlier message carries: the earlier messages are untouched,
      the run message goes Initialization/15, Scanning/45, Completed/100,
      stays `running` until the last step, and ends with its result card. */
  lemma RunLifecycle(ms: seq<Message>, runId: string, input: string, draws: seq<Draw>)
    requires runId !in Ids(ms)
    requires |draws| == |ms| + 1 && ValidDraws(draws)
    ensures var start := RunningMessage(runId, input);
      var results := RunResults(draws[|ms|].vuln, draws[|ms|].hosts);
      var s1 := ms + [start];
      var s2 := RewriteById(s1, runId, Scan);
      var s3 := FinishById(s2, runId, draws);
      && s2 == ms + [Advance(start, Scan)]
      && s3 == ms + [Advance(Advance(start, Scan), Finish(results))]
      && RunSnapshots(s1[|ms|], s2[|ms|], s3[|ms|], results)
  {
    var start := RunningMessage(runId, input);
    var results := RunResults(draws[|ms|].vuln, draws[|ms|].hosts);
    RewriteFreshTail(ms, start, Scan);
    FinishFreshTail(ms, Advance(start, Scan), draws);
    RunningMessageSnapshots(start, results);
  }

  /** The three states a run message passes through: progress 15, 45, 100
      in that order, `running` until the last, which carries the results. */
  ghost predicate RunSnapshots(m1: Message, m2: Message, m3: Message, results: Results)
  {
    && m1.taskExecution == Some(InitExecution) && m1.status == Some(Running)
    && m2.taskExecution == Some(ScanExecution) && m2.status == Some(Running)
    && m3.taskExecution == Some(DoneExecution) && m3.status == Some(Completed)
    && m3.results == Some(results)
    && Progress(m1) == 15 && Progress(m2) == 45 && Progress(m3) == 100
  }

  lemma RunningMessageSnapshots(start: Message, results: Results)
    requires start.taskExecution == Some(InitExecution) && start.status == Some(Running)
    ensures RunSnapshots(start, Advance(start, Scan), Advance(Advance(start, Scan), Finish(results)), results)
  {
  }

  /** Rewriting by the id of a message appended after messages that do not
      carry it changes that message alone. */
  lemma RewriteFreshTail(ms: seq<Message>, m: Message, step: Step)
    requires m.id !in Ids(ms)
    ensures RewriteById(ms + [m], m.id, step) == ms + [Advance(m, step)]
  {
    RewriteAppend(ms, [m], m.id, step);
    RewriteKeepsIdentity(ms, m.id, step);
  }

  /** The completing callback on a message appended after messages that do
      not carry its id completes that message alone, with its own draw. */
  lemma FinishFreshTail(ms: seq<Message>, m: Message, draws: seq<Draw>)
    requires m.id !in Ids(ms)
    requires |draws| == |ms| + 1 && ValidDraws(draws)
    ensures FinishById(ms + [m], m.id, draws)
            == ms + [Advance(m, Finish(RunResults(draws[|ms|].vuln, draws[|ms|].hosts)))]
  {
    var l, r := FinishById(ms + [m], m.id, draws),
                ms + [Advance(m, Finish(RunResults(draws[|ms|].vuln, draws[|ms|].hosts)))];
    forall i | 0 <= i < |ms| ensures l[i] == r[i] {
      assert Ids(ms)[i] == ms[i].id;
      assert (ms + [m])[i] == ms[i];
    }
    assert (ms + [m])[|ms|] == m;
  }

  /** What every message in the store satisfies, whatever the order of the
      callbacks and however ids collide: no status is ever `failed`, every
      progress block is one of the three snapshots, every result card is in
      range. */
  ghost predicate Sound(m: Message)
  {
    && m.status != Some(Failed)
    && (m.taskExecution.Some? ==> m.taskExecution.value in {InitExecution, ScanExecution, DoneExecution})
    && (m.results.Some? ==>
          var r := m.results.value;
          5 <= r.vulnerabilities <= 24 && 10 <= r.hostsScanned <= 59 && |r.findings| == 4)
  }

  ghost predicate AllSound(ms: seq<Message>)
  {
    forall i :: 0 <= i < |ms| ==> Sound(ms[i])
  }

  lemma RewriteKeepsSound(ms: seq<Message>, id: string, step: Step)
    requires AllSound(ms)
    requires step.Finish? ==> var r := step.results;
      5 <= r.vulnerabilities <= 24 && 10 <= r.hostsScanned <= 59 && |r.findings| == 4
    ensures AllSound(RewriteById(ms, id, step))
  {
  }

  lemma FinishKeepsSound(ms: seq<Message>, id: string, draws: seq<Draw>)
    requires AllSound(ms)
    requires |draws| == |ms| && ValidDraws(draws)
    ensures AllSound(FinishById(ms, id, draws))
  {
  }

  /** What a send left scheduled on the timer. */
  datatype Pending = Nothing | RunScheduled(input: string) | ReplyScheduled(input: string)

  /** The send button is enabled only for non-blank input while no reply is
      being typed. */
  predicate SendEnabled(input: string, isTyping: bool)
  {
    Trim(input) != [] && !isTyping
  }

  /** The chat page's state: the message list, the text box and the typing
      indicator. */
  class ChatSession {
    var messages: seq<Message>
    var input: string
    var isTyping: bool

    ghost predicate Valid()
      reads this
    {
      AllSound(messages)
    }

    constructor ()
      ensures Valid()
      ensures messages == [Welcome] && input == "" && !isTyping
    {
      messages := [Welcome];
      input := "";
      isTyping := false;
    }

    /** Typing in the text box, or choosing a quick action. */
    method SetInput(text: string)
      requires Valid()
      modifies this
      ensures Valid()
      ensures input == text && messages == old(messages) && isTyping == old(isTyping)
    {
      input := text;
    }

    /** `handleSendMessage` up to its first timer: a blank input changes
        nothing; otherwise the user message is appended, the box cleared, the
        indicator raised, and a run or a reply scheduled by category. */
    method Send(userId: string) returns (pending: Pending)
      requires Valid()
      modifies this
      ensures Valid()
      ensures Blank(old(input)) ==>
        messages == old(messages) && input == old(input) && isTyping == old(isTyping) && pending == Nothing
      ensures !Blank(old(input)) ==>
        && messages == old(messages) + [UserMessage(userId, old(input))]
        && input == "" && isTyping
        && pending == (if IsTask(Classify(old(input))) then RunScheduled(old(input)) else ReplyScheduled(old(input)))
    {
      TrimEmptyIffBlank(input);
      if Trim(input) == [] {
        return Nothing;
      }
      var text := input;
      messages := messages + [UserMessage(userId, text)];
      input := "";
      isTyping := true;
      if IsTask(Classify(text)) {
        pending := RunScheduled(text);
      } else {
        pending := ReplyScheduled(text);
      }
    }

    /** The send button: disabled while the input is blank or a reply is
        being typed. */
    method ClickSend(userId: string) returns (pending: Pending)
      requires Valid()
      modifies this
      ensures Valid()
      ensures !SendEnabled(old(input), old(isTyping)) ==>
        messages == old(messages) && input == old(input) && isTyping == old(isTyping) && pending == Nothing
      ensures SendEnabled(old(input), old(isTyping)) ==>
        && messages == old(messages) + [UserMessage(userId, old(input))] && input == "" && isTyping
        && pending == (if IsTask(Classify(old(input))) then RunScheduled(old(input)) else ReplyScheduled(old(input)))
    {
      TrimEmptyIffBlank(input);
      if SendEnabled(input, isTyping) {
        pending := Send(userId);
      } else {
        pending := Nothing;
      }
    }

    /** The text box's key handler: Enter without Shift sends, and does so
        even while a reply is being typed. */
    method PressKey(isEnter: bool, shift: bool, userId: string) returns (pending: Pending)
      requires Valid()
      modifies this
      ensures Valid()
      ensures !(isEnter && !shift) || Blank(old(input)) ==>
        messages == old(messages) && input == old(input) && isTyping == old(isTyping) && pending == Nothing
      ensures isEnter && !shift && !Blank(old(input)) ==>
        && messages == old(messages) + [UserMessage(userId, old(input))] && input == "" && isTyping
        && pending == (if IsTask(Classify(old(input))) then RunScheduled(old(input)) else ReplyScheduled(old(input)))
    {
      if isEnter && !shift {
        pending := Send(userId);
      } else {
        pending := Nothing;
      }
    }

    /** First callback of a run (after 1 s): append the running message. */
    method StartRun(runId: string, text: string)
      requires Valid()
      modifies this
      ensures Valid()
      ensures messages == old(messages) + [RunningMessage(runId, text)]
      ensures !isTyping && input == old(input)
    {
      messages := messages + [RunningMessage(runId, text)];
      isTyping := false;
    }

    /** Second callback of a run (2 s after the first): every message with the
        run's id moves to the scanning snapshot. */
    method AdvanceToScanning(runId: string)
      requires Valid()
      modifies this
      ensures Valid()
      ensures messages == RewriteById(old(messages), runId, Scan)
      ensures input == old(input) && isTyping == old(isTyping)
    {
      RewriteKeepsSound(messages, runId, Scan);
      messages := RewriteById(messages, runId, Scan);
    }

    /** Last callback of a run (4.5 s after the first): every message with the
        run's id is completed with the final snapshot and a result card of
        its own; `draws[i]` is what the random calls give at position `i`. */
    method Complete(runId: string, draws: seq<Draw>)
      requires Valid()
      requires |draws| == |messages| && ValidDraws(draws)
      modifies this
      ensures Valid()
      ensures messages == FinishById(old(messages), runId, draws)
      ensures input == old(input) && isTyping == old(isTyping)
    {
      FinishKeepsSound(messages, runId, draws);
      messages := FinishById(messages, runId, draws);
    }

    /** The callback of a non-task send (after 1.5 s): append one completed
        reply and lower the indicator. */
    method Reply(replyId: string, text: string)
      requires Valid()
      modifies this
      ensures Valid()
      ensures messages == old(messages) + [ReplyMessage(replyId, text)]
      ensures !isTyping && input == old(input)
    {
      messages := messages + [ReplyMessage(replyId, text)];
      isTyping := false;
    }
  }

  // ---------------------------------------------------------------------------
  // Quick-action prompts and what they classify as

  const PentestPrompt: string := "Perform a comprehensive penetration test on target hosts"
  const ReconPrompt: string := "Initiate reconnaissance scan to discover assets and vulnerabilities"
  const AnalyzePrompt: string := "Analyze recent security findings and provide detailed explanations"
  const RootCausePrompt: string := "Perform root cause analysis on critical vulnerabilities"

  /** A keyword with a letter the text lacks does not occur in it. */
  lemma AbsentLetter(text: string, keyword: string, k: nat)
    requires k < |keyword|
    requires forall i :: 0 <= i < |text| ==> text[i] != keyword[k]
    ensures !Contains(text, keyword)
  {
    forall i | 0 <= i && i + |keyword| <= |text| ensures !OccursAt(text, keyword, i) {
      assert text[i..i + |keyword|][k] == text[i + k];
    }
    ContainsIff(text, keyword);
  }

  lemma PentestPromptSplit()
    ensures PentestPrompt == "Perform a comprehensive " + "penetration" + " test on target hosts"
  {
  }

  lemma PenetrationLower()
    ensures Contains(Lower("penetration"), "penetration")
  {
    assert Lower("penetration") == "penetration";
    assert StartsWith("penetration", "penetration");
  }

  /** The "Run Pentest" quick action starts a pentest run. */
  lemma PentestPromptIsPentest()
    ensures Classify(PentestPrompt) == Pentesting
    ensures IsTask(Classify(PentestPrompt))
  {
    PentestPromptSplit();
    PenetrationLower();
    PentestWins("Perform a comprehensive ", "penetration", " test on target hosts");
  }

  /** Every keyword has one of the letters p, c, o and n, so an input
      without them gets the default category and starts no run. */
  lemma NoKeywordLetters(input: string)
    requires forall i :: 0 <= i < |Lower(input)| ==> Lower(input)[i] !in "pcon"
    ensures Classify(input) == Question
  {
    var l := Lower(input);
    AbsentLetter(l, "pentest", 0);
    AbsentLetter(l, "penetration", 0);
    AbsentLetter(l, "recon", 2);
    AbsentLetter(l, "reconnaissance", 2);
    AbsentLetter(l, "rca", 1);
    AbsentLetter(l, "root cause", 1);
    AbsentLetter(l, "analyze", 1);
    AbsentLetter(l, "analysis", 1);
  }
}
