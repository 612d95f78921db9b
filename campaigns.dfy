/** The campaigns page: a list of scan campaigns whose status the pause,
    resume and stop buttons rewrite, and the summary figures above it. */
module Campaigns {

  datatype CampaignStatus = Running | Paused | Completed | Stopped

  datatype Campaign = Campaign(
    id: string,
    name: string,
    target: string,
    status: CampaignStatus,
    progress: int,
    startTime: string,
    duration: string,
    vulnerabilitiesFound: int,
    hostsScanned: int,
    totalHosts: int)

  /** Every campaign whose id is `id` gets `status`; the rest are kept. */
  function WithStatus(cs: seq<Campaign>, id: string, status: CampaignStatus): (r: seq<Campaign>)
    ensures |r| == |cs|
    ensures forall i :: 0 <= i < |cs| && cs[i].id == id ==> r[i] == cs[i].(status := status)
    ensures forall i :: 0 <= i < |cs| && cs[i].id != id ==> r[i] == cs[i]
  {
    if cs == [] then []
    else [if cs[0].id == id then cs[0].(status := status) else cs[0]] + WithStatus(cs[1..], id, status)
  }

  predicate HasId(cs: seq<Campaign>, id: string)
  {
    exists i :: 0 <= i < |cs| && cs[i].id == id
  }

  predicate UniqueIds(cs: seq<Campaign>)
  {
    forall i, j :: 0 <= i < j < |cs| ==> cs[i].id != cs[j].id
  }

  /** A rewrite keeps every campaign's id, so distinct ids stay distinct. */
  lemma WithStatusKeepsIds(cs: seq<Campaign>, id: string, status: CampaignStatus)
    ensures forall i :: 0 <= i < |cs| ==> WithStatus(cs, id, status)[i].id == cs[i].id
    ensures UniqueIds(cs) ==> UniqueIds(WithStatus(cs, id, status))
  {
  }

  /** A handler called with an id that no campaign has changes nothing. */
  lemma UnknownIdUnchanged(cs: seq<Campaign>, id: string, status: CampaignStatus)
    requires !HasId(cs, id)
    ensures WithStatus(cs, id, status) == cs
  {
  }

  /** Of two rewrites of the same id the later one wins; in particular each
      handler is idempotent. */
  lemma LastRewriteWins(cs: seq<Campaign>, id: string, first: CampaignStatus, second: CampaignStatus)
    ensures WithStatus(WithStatus(cs, id, first), id, second) == WithStatus(cs, id, second)
    ensures WithStatus(WithStatus(cs, id, second), id, second) == WithStatus(cs, id, second)
  {
    var a, b := WithStatus(WithStatus(cs, id, first), id, second), WithStatus(cs, id, second);
    assert forall i :: 0 <= i < |cs| ==> a[i] == b[i];
  }

  /** Pausing campaigns that are all running and then resuming them gives
      back the original list. */
  lemma PauseResumeRestores(cs: seq<Campaign>, id: string)
    requires forall i :: 0 <= i < |cs| && cs[i].id == id ==> cs[i].status == Running
    ensures WithStatus(WithStatus(cs, id, Paused), id, Running) == cs
  {
    var r := WithStatus(WithStatus(cs, id, Paused), id, Running);
    assert forall i :: 0 <= i < |cs| ==> r[i] == cs[i];
  }

  /** The three state-changing buttons. "View Details" changes nothing and is
      not modelled as an action. */
  datatype Action = Pause | Resume | Stop

  /** The buttons a campaign card renders for each status. */
  function Actions(status: CampaignStatus): set<Action>
  {
    match status
    case Running => {Pause, Stop}
    case Paused => {Resume, Stop}
    case Completed => {}
    case Stopped => {}
  }

  /** The status each button's handler writes. */
  function Target(a: Action): CampaignStatus
  {
    match a
    case Pause => Paused
    case Resume => Running
    case Stop => Stopped
  }

  /** The status changes the page is meant to allow. */
  predicate Transition(from: CampaignStatus, to: CampaignStatus)
  {
    || (from == Running && to == Paused)
    || (from == Running && to == Stopped)
    || (from == Paused && to == Running)
    || (from == Paused && to == Stopped)
  }

  /** The rendered buttons offer exactly the allowed transitions, and no
      button at all on a completed or stopped campaign. */
  lemma ButtonsOfferTransitions(from: CampaignStatus, to: CampaignStatus)
    ensures Transition(from, to) <==> exists a :: a in Actions(from) && Target(a) == to
    ensures from == Completed || from == Stopped ==> Actions(from) == {}
  {
    if Transition(from, to) {
      var a := if to == Paused then Pause else if to == Running then Resume else Stop;
      assert a in Actions(from) && Target(a) == to;
    }
  }

  /** With unique ids, clicking a button on card `k` changes that card's
      status along an allowed transition and leaves every other card alone. */
  lemma ClickIsTransition(cs: seq<Campaign>, k: nat, a: Action)
    requires UniqueIds(cs) && k < |cs|
    requires a in Actions(cs[k].status)
    ensures var r := WithStatus(cs, cs[k].id, Target(a));
      && r == cs[k := cs[k].(status := Target(a))]
      && Transition(cs[k].status, r[k].status)
  {
    var r := WithStatus(cs, cs[k].id, Target(a));
    assert forall i :: 0 <= i < |cs| ==> r[i] == cs[k := cs[k].(status := Target(a))][i];
    ButtonsOfferTransitions(cs[k].status, Target(a));
  }

  // ---------------------------------------------------------------------------
  // Summary figures

  /** The number of campaigns with the given status. */
  function CountStatus(cs: seq<Campaign>, status: CampaignStatus): (n: nat)
    ensures n <= |cs|
  {
    if cs == [] then 0
    else (if cs[0].status == status then 1 else 0) + CountStatus(cs[1..], status)
  }

  /** The four counts partition the list, so the three shown on the page sum
      to at most its length. */
  lemma {:induction false} CountsPartition(cs: seq<Campaign>)
    ensures CountStatus(cs, Running) + CountStatus(cs, Paused) + CountStatus(cs, Completed)
            + CountStatus(cs, Stopped) == |cs|
    ensures CountStatus(cs, Running) + CountStatus(cs, Paused) + CountStatus(cs, Completed) <= |cs|
  {
    if cs != [] {
      CountsPartition(cs[1..]);
    }
  }

  /** Replacing one campaign moves it from its old status's count to its new
      one. */
  lemma {:induction false} CountAfterReplace(cs: seq<Campaign>, k: nat, c: Campaign, status: CampaignStatus)
    requires k < |cs|
    ensures CountStatus(cs[k := c], status)
            == CountStatus(cs, status)
               - (if cs[k].status == status then 1 else 0)
               + (if c.status == status then 1 else 0)
  {
    if k > 0 {
      CountAfterReplace(cs[1..], k - 1, c, status);
      assert cs[k := c][1..] == cs[1..][k - 1 := c];
    } else {
      assert cs[k := c][1..] == cs[1..];
    }
  }

  /** Pausing a running campaign (ids unique) moves one campaign from the
      running count to the paused count. */
  lemma PauseMovesCount(cs: seq<Campaign>, k: nat)
    requires UniqueIds(cs) && k < |cs| && cs[k].status == Running
    ensures var r := WithStatus(cs, cs[k].id, Paused);
      && CountStatus(r, Running) == CountStatus(cs, Running) - 1
      && CountStatus(r, Paused) == CountStatus(cs, Paused) + 1
  {
    ClickIsTransition(cs, k, Pause);
    CountAfterReplace(cs, k, cs[k].(status := Paused), Running);
    CountAfterReplace(cs, k, cs[k].(status := Paused), Paused);
  }

  /** The sum of `vulnerabilitiesFound`, element by element. */
  function SumVulnerabilities(cs: seq<Campaign>): int
  {
    if cs == [] then 0 else cs[0].vulnerabilitiesFound + SumVulnerabilities(cs[1..])
  }

  /** The page's left fold: `vulnerabilitiesFound` added to `acc` from the
      first campaign to the last. */
  function ReduceVulnerabilities(cs: seq<Campaign>, acc: int): int
  {
    if cs == [] then acc else ReduceVulnerabilities(cs[1..], acc + cs[0].vulnerabilitiesFound)
  }

  /** The "Total Vulnerabilities" figure. */
  function TotalVulnerabilities(cs: seq<Campaign>): int
  {
    ReduceVulnerabilities(cs, 0)
  }

  lemma {:induction false} ReduceIsSum(cs: seq<Campaign>, acc: int)
    ensures ReduceVulnerabilities(cs, acc) == acc + SumVulnerabilities(cs)
  {
    if cs != [] {
      ReduceIsSum(cs[1..], acc + cs[0].vulnerabilitiesFound);
    }
  }

  /** The total is the sum over all campaigns, and no status change alters it. */
  lemma TotalIsSum(cs: seq<Campaign>, id: string, status: CampaignStatus)
    ensures TotalVulnerabilities(cs) == SumVulnerabilities(cs)
    ensures TotalVulnerabilities(WithStatus(cs, id, status)) == TotalVulnerabilities(cs)
  {
    ReduceIsSum(cs, 0);
    ReduceIsSum(WithStatus(cs, id, status), 0);
    SumIgnoresStatus(cs, id, status);
  }

  lemma {:induction false} SumIgnoresStatus(cs: seq<Campaign>, id: string, status: CampaignStatus)
    ensures SumVulnerabilities(WithStatus(cs, id, status)) == SumVulnerabilities(cs)
  {
    if cs != [] {
      SumIgnoresStatus(cs[1..], id, status);
      assert WithStatus(cs, id, status)[1..] == WithStatus(cs[1..], id, status);
    }
  }

  // ---------------------------------------------------------------------------
  // The page's state

  const SampleCampaigns: seq<Campaign> := [
    Campaign("camp-001", "Q4 Production Infrastructure Scan", "prod.example.com", Running, 67,
             "2025-11-22 09:15:00", "2h 34m", 23, 45, 67),
    Campaign("camp-002", "API Security Assessment", "api.example.com", Running, 34,
             "2025-11-22 11:45:00", "1h 12m", 8, 12, 35),
    Campaign("camp-003", "Web Application Pentest", "app.example.com", Paused, 89,
             "2025-11-21 14:20:00", "5h 47m", 42, 89, 100),
    Campaign("camp-004", "Network Infrastructure Audit", "10.0.0.0/16", Completed, 100,
             "2025-11-20 08:00:00", "12h 15m", 156, 500, 500),
    Campaign("camp-005", "Mobile API Gateway Scan", "mobile.api.example.com", Stopped, 45,
             "2025-11-19 16:30:00", "3h 22m", 15, 18, 40),
    Campaign("camp-006", "Cloud Infrastructure Review", "AWS us-east-1", Completed, 100,
             "2025-11-18 10:00:00", "8h 30m", 78, 234, 234)
  ]

  /** The campaigns page's state: its campaign list. */
  class CampaignStore {
    var campaigns: seq<Campaign>

    /** The cards' ids stay distinct. */
    ghost predicate Valid()
      reads this
    {
      UniqueIds(campaigns)
    }

    constructor ()
      ensures Valid()
      ensures campaigns == SampleCampaigns
    {
      campaigns := SampleCampaigns;
      new;
      SampleSummary();
    }

    /** `handlePause`. */
    method HandlePause(id: string)
      requires Valid()
      modifies this
      ensures Valid()
      ensures campaigns == WithStatus(old(campaigns), id, Paused)
    {
      WithStatusKeepsIds(campaigns, id, Paused);
      campaigns := WithStatus(campaigns, id, Paused);
    }

    /** `handleResume`. */
    method HandleResume(id: string)
      requires Valid()
      modifies this
      ensures Valid()
      ensures campaigns == WithStatus(old(campaigns), id, Running)
    {
      WithStatusKeepsIds(campaigns, id, Running);
      campaigns := WithStatus(campaigns, id, Running);
    }

    /** `handleStop`. */
    method HandleStop(id: string)
      requires Valid()
      modifies this
      ensures Valid()
      ensures campaigns == WithStatus(old(campaigns), id, Stopped)
    {
      WithStatusKeepsIds(campaigns, id, Stopped);
      campaigns := WithStatus(campaigns, id, Stopped);
    }

    /** A click on one of the buttons card `k` renders. */
    method Click(k: nat, a: Action)
      requires Valid()
      requires k < |campaigns| && a in Actions(campaigns[k].status)
      modifies this
      ensures Valid()
      ensures campaigns == WithStatus(old(campaigns), old(campaigns)[k].id, Target(a))
      ensures campaigns == old(campaigns)[k := old(campaigns)[k].(status := Target(a))]
      ensures Transition(old(campaigns)[k].status, campaigns[k].status)
    {
      var id := campaigns[k].id;
      ClickIsTransition(campaigns, k, a);
      match a
      case Pause => HandlePause(id);
      case Resume => HandleResume(id);
      case Stop => HandleStop(id);
    }

    /** The four summary cards: running, paused and completed counts and the
        vulnerability total. */
    method Summary() returns (running: nat, paused: nat, completed: nat, total: int)
      ensures running == CountStatus(campaigns, Running)
      ensures paused == CountStatus(campaigns, Paused)
      ensures completed == CountStatus(campaigns, Completed)
      ensures running + paused + completed <= |campaigns|
      ensures total == SumVulnerabilities(campaigns)
    {
      running := CountStatus(campaigns, Running);
      paused := CountStatus(campaigns, Paused);
      completed := CountStatus(campaigns, Completed);
      CountsPartition(campaigns);
      total := TotalVulnerabilities(campaigns);
      ReduceIsSum(campaigns, 0);
    }
  }

  /** The figures of the initial list: two running, one paused, two
      completed, 322 vulnerabilities, ids all different. */
  lemma SampleSummary()
    ensures CountStatus(SampleCampaigns, Running) == 2
    ensures CountStatus(SampleCampaigns, Paused) == 1
    ensures CountStatus(SampleCampaigns, Completed) == 2
    ensures TotalVulnerabilities(SampleCampaigns) == 322
    ensures UniqueIds(SampleCampaigns)
  {
    ReduceIsSum(SampleCampaigns, 0);
  }
}
