/**
 Provisioning a GCP enclave (crates/nclav-driver/src/gcp.rs, `provision_enclave`): a sequence of create
 requests against a cloud that says when something already exists.
 */
module Gcp {
  import opened Prelude

  // ----- the cloud -----

  datatype Project = Project(number: string, deleting: bool)

  datatype Subnet = Subnet(cidr: string, network: string)

  datatype Zone = Zone(dnsName: string, network: string)

  /** What the requests of one enclave can see or change. `others` are further projects that can be read. */
  datatype Cloud = Cloud(
    project: Option<Project>,
    labels: Option<string>,
    billing: Option<string>,
    apis: set<string>,
    accounts: map<string, string>,
    network: bool,
    subnets: map<(string, nat), Subnet>,
    zone: Option<Zone>,
    others: set<string>)

  /**
   The enclave and the driver's settings. `services` are the APIs the driver enables, `number` is the
   number the cloud gives a new project, and `reported` the e-mail address in its reply about a new
   account, if it names one.
   */
  datatype Config = Config(
    enclave: string,
    projectId: string,
    region: string,
    billingAccount: string,
    identity: Option<string>,
    network: Option<seq<string>>,
    zone: Option<string>,
    services: set<string>,
    number: string,
    reported: Option<string>)

  function AccountId(cfg: Config): string {
    if cfg.identity.Some? then cfg.identity.value else cfg.projectId
  }

  function ConventionalEmail(cfg: Config): string {
    AccountId(cfg) + "@" + cfg.projectId + ".iam.gserviceaccount.com"
  }

  function NewEmail(cfg: Config): string {
    if cfg.reported.Some? then cfg.reported.value else ConventionalEmail(cfg)
  }

  function NetworkLink(cfg: Config): string {
    if cfg.network.None? then ""
    else "https://www.googleapis.com/compute/v1/projects/" + cfg.projectId + "/global/networks/nclav-vpc"
  }

  function Cidrs(cfg: Config): seq<string> {
    if cfg.network.None? then [] else cfg.network.value
  }

  /** The subnet the i-th network entry asks for. */
  function WantedSubnet(cfg: Config, i: nat): Subnet
    requires i < |Cidrs(cfg)|
  {
    Subnet(Cidrs(cfg)[i], NetworkLink(cfg))
  }

  function WantedZone(cfg: Config): Zone
    requires cfg.zone.Some?
  {
    Zone(cfg.zone.value + ".", NetworkLink(cfg))
  }

  // ----- requests -----

  datatype Request =
    | CreateProject
    | ReadProject(id: string)
    | Undelete
    | PatchLabels
    | LinkBilling
    | EnableApis
    | CreateAccount
    | CreateNetwork
    | CreateSubnet(index: nat)
    | CreateZone

  datatype Answer = Done | Exists | Refused | Found(number: string, deleting: bool)

  predicate Active(c: Cloud) {
    c.project.Some? && !c.project.value.deleting
  }

  predicate Readable(cfg: Config, c: Cloud, id: string) {
    (id == cfg.projectId && c.project.Some?) || id in c.others
  }

  /** The cloud's own behaviour: everything inside a project needs it to be active. */
  function Serve(cfg: Config, c: Cloud, q: Request): (Cloud, Answer) {
    match q
    case CreateProject =>
      if c.project.Some? then (c, Exists)
      else (c.(project := Some(Project(cfg.number, false))), Done)
    case ReadProject(id) =>
      if id == cfg.projectId && c.project.Some? then (c, Found(c.project.value.number, c.project.value.deleting))
      else if Readable(cfg, c, id) then (c, Found("", false))
      else (c, Refused)
    case Undelete =>
      if c.project.None? then (c, Refused)
      else (c.(project := Some(c.project.value.(deleting := false))), Done)
    case PatchLabels =>
      if !Active(c) then (c, Refused) else (c.(labels := Some(cfg.enclave)), Done)
    case LinkBilling =>
      if !Active(c) then (c, Refused) else (c.(billing := Some(cfg.billingAccount)), Done)
    case EnableApis =>
      if !Active(c) then (c, Refused) else (c.(apis := c.apis + cfg.services), Done)
    case CreateAccount =>
      if !Active(c) then (c, Refused)
      else if AccountId(cfg) in c.accounts then (c, Exists)
      else (c.(accounts := c.accounts[AccountId(cfg) := NewEmail(cfg)]), Done)
    case CreateNetwork =>
      if !Active(c) then (c, Refused)
      else if c.network then (c, Exists)
      else (c.(network := true), Done)
    case CreateSubnet(i) =>
      if !Active(c) || !c.network || i >= |Cidrs(cfg)| then (c, Refused)
      else if (cfg.region, i) in c.subnets then (c, Exists)
      else (c.(subnets := c.subnets[(cfg.region, i) := WantedSubnet(cfg, i)]), Done)
    case CreateZone =>
      if !Active(c) || cfg.zone.None? then (c, Refused)
      else if c.zone.Some? then (c, Exists)
      else (c.(zone := Some(WantedZone(cfg))), Done)
  }

  /**
   What can go wrong with a request. A process that stops before a request looks like `NotSent`, one
   that stops after it like `ReplyLost`.
   */
  datatype Fault =
    | NoFault
    | NotSent            // never reaches the cloud
    | ReplyLost          // takes effect, the reply does not arrive
    | Denied             // answered with an error, no effect
    | WaitLost           // takes effect, waiting for the operation fails
    | OperationFailed    // accepted, then the operation fails without effect

  datatype Failure = Transport | Http | Operation

  type Reply = Result<Answer, Failure>

  /** Requests answered with an operation that has to be waited for. */
  predicate LongRunning(q: Request) {
    q.CreateProject? || q.Undelete? || q.PatchLabels? || q.EnableApis? || q.CreateNetwork? || q.CreateSubnet?
  }

  function Ask(cfg: Config, c: Cloud, q: Request, fault: Fault): (Cloud, Reply) {
    var (c1, a) := Serve(cfg, c, q);
    match fault
    case NoFault => (c1, Ok(a))
    case NotSent => (c, Err(Transport))
    case ReplyLost => (c1, Err(Transport))
    case Denied => (c, Err(Http))
    case WaitLost => if LongRunning(q) && a.Done? then (c1, Err(Operation)) else (c1, Ok(a))
    case OperationFailed => if LongRunning(q) && a.Done? then (c, Err(Operation)) else (c1, Ok(a))
  }

  // ----- the handle -----

  datatype Handle = Handle(
    projectId: Option<string>,
    number: string,
    email: string,
    link: string,
    zoneName: string,
    region: string,
    complete: bool)

  /** The handle stamped at the end of the sequence. */
  function Stamp(cfg: Config, number: string, email: string): Handle {
    Handle(Some(cfg.projectId), number, email, NetworkLink(cfg), if cfg.zone.Some? then "nclav-zone" else "",
           cfg.region, true)
  }

  /** A handle that lets a call consider skipping the sequence. */
  predicate Skippable(existing: Option<Handle>) {
    existing.Some? && existing.value.complete && existing.value.projectId.Some?
  }

  // ----- what a call does, as a function -----

  /** The cloud, and how many requests this call has made. */
  datatype Session = Session(cloud: Cloud, sent: nat)

  type Schedule = nat -> Fault

  type Step = Result<string, Failure>

  function Send(cfg: Config, f: Schedule, s: Session, q: Request): (Session, Reply) {
    var (c, r) := Ask(cfg, s.cloud, q, f(s.sent));
    (Session(c, s.sent + 1), r)
  }

  /** A request whose "already exists" is as good as done; `done` and `there` are the values it yields. */
  function Ensure(cfg: Config, f: Schedule, s: Session, q: Request, done: string, there: string): (Session, Step) {
    var (s1, r) := Send(cfg, f, s, q);
    (s1, if r.Err? then Err(r.error)
         else if r.value.Exists? then Ok(there)
         else if r.value.Refused? then Err(Http)
         else Ok(done))
  }

  /** The number of a project that is already there; a failed read is not noticed and leaves it empty. */
  function AdoptProject(cfg: Config, f: Schedule, s: Session): (Session, Step) {
    var (s1, r) := Send(cfg, f, s, ReadProject(cfg.projectId));
    if r.Err? && r.error.Transport? then (s1, Err(Transport))
    else if r.Ok? && r.value.Found? then
      if r.value.deleting then
        Ensure(cfg, f, s1, Undelete, r.value.number, r.value.number)
      else (s1, Ok(r.value.number))
    else (s1, Ok(""))
  }

  function ProjectStep(cfg: Config, f: Schedule, s: Session): (Session, Step) {
    var (s1, r) := Send(cfg, f, s, CreateProject);
    if r.Err? then (s1, Err(r.error))
    else if r.value.Exists? then AdoptProject(cfg, f, s1)
    else (s1, Ok(cfg.number))
  }

  /** Best effort: only a request that cannot be sent, or whose reply is lost, ends the call. */
  function LabelStep(cfg: Config, f: Schedule, s: Session): (Session, Step) {
    var (s1, r) := Send(cfg, f, s, PatchLabels);
    (s1, if r.Err? && r.error.Transport? then Err(Transport) else Ok(""))
  }

  function AccountStep(cfg: Config, f: Schedule, s: Session): (Session, Step) {
    Ensure(cfg, f, s, CreateAccount, NewEmail(cfg), ConventionalEmail(cfg))
  }

  function NetworkStep(cfg: Config, f: Schedule, s: Session): (Session, Step) {
    if cfg.network.None? then (s, Ok("")) else Ensure(cfg, f, s, CreateNetwork, "", "")
  }

  /** The subnets from the i-th on. */
  function SubnetSteps(cfg: Config, f: Schedule, s: Session, i: nat): (Session, Step)
    requires i <= |Cidrs(cfg)|
    decreases |Cidrs(cfg)| - i
  {
    if i == |Cidrs(cfg)| then (s, Ok(""))
    else
      var (s1, r) := Ensure(cfg, f, s, CreateSubnet(i), "", "");
      if r.Err? then (s1, r) else SubnetSteps(cfg, f, s1, i + 1)
  }

  function ZoneStep(cfg: Config, f: Schedule, s: Session): (Session, Step) {
    if cfg.zone.None? then (s, Ok("")) else Ensure(cfg, f, s, CreateZone, "", "")
  }

  /** Network, subnets, zone. */
  function NetworkSteps(cfg: Config, f: Schedule, s: Session): (Session, Step) {
    var (s1, r1) := NetworkStep(cfg, f, s);
    if r1.Err? then (s1, r1)
    else
      var (s2, r2) := SubnetSteps(cfg, f, s1, 0);
      if r2.Err? then (s2, r2) else ZoneStep(cfg, f, s2)
  }

  /** Project, labels, billing, APIs; yields the project's number. */
  function ProjectSteps(cfg: Config, f: Schedule, s: Session): (Session, Step) {
    var (s1, r1) := ProjectStep(cfg, f, s);
    if r1.Err? then (s1, r1)
    else
      var (s2, r2) := LabelStep(cfg, f, s1);
      if r2.Err? then (s2, r2)
      else
        var (s3, r3) := Ensure(cfg, f, s2, LinkBilling, "", "");
        if r3.Err? then (s3, r3)
        else
          var (s4, r4) := Ensure(cfg, f, s3, EnableApis, "", "");
          if r4.Err? then (s4, r4) else (s4, r1)
  }

  /** The whole sequence. */
  function Sequence(cfg: Config, f: Schedule, s: Session): (Session, Result<Handle, Failure>) {
    var (s1, number) := ProjectSteps(cfg, f, s);
    if number.Err? then (s1, Err(number.error))
    else
      var (s2, email) := AccountStep(cfg, f, s1);
      if email.Err? then (s2, Err(email.error))
      else
        var (s3, r) := NetworkSteps(cfg, f, s2);
        if r.Err? then (s3, Err(r.error)) else (s3, Ok(Stamp(cfg, number.value, email.value)))
  }

  /** A call: a finished handle whose project can be read is given back as it is. */
  function Provision(cfg: Config, existing: Option<Handle>, f: Schedule, c: Cloud): (Session, Result<Handle, Failure>) {
    var s := Session(c, 0);
    if Skippable(existing) then
      var (s1, r) := Send(cfg, f, s, ReadProject(existing.value.projectId.value));
      if r.Err? && r.error.Transport? then (s1, Err(Transport))
      else if r.Ok? && r.value.Found? then (s1, Ok(existing.value))
      else Sequence(cfg, f, s1)
    else Sequence(cfg, f, s)
  }

  // ----- the same, step by step -----

  class Driver {
    const cfg: Config
    const faults: Schedule
    var cloud: Cloud
    var sent: nat

    constructor (cfg: Config, faults: Schedule, cloud: Cloud)
      ensures this.cfg == cfg && this.faults == faults && this.cloud == cloud && sent == 0
    {
      this.cfg, this.faults, this.cloud, sent := cfg, faults, cloud, 0;
    }

    function Now(): Session
      reads this
    {
      Session(cloud, sent)
    }

    method Request(q: Request) returns (r: Reply)
      modifies this
      ensures (Now(), r) == Send(cfg, faults, old(Now()), q)
    {
      var answer := Ask(cfg, cloud, q, faults(sent));
      cloud, sent, r := answer.0, sent + 1, answer.1;
    }

    /** A POST whose "already exists" error is swallowed. */
    method Create(q: Request, done: string, there: string) returns (r: Step)
      modifies this
      ensures (Now(), r) == Ensure(cfg, faults, old(Now()), q, done, there)
    {
      var reply := Request(q);
      match reply
      case Err(e) => r := Err(e);
      case Ok(Exists) => r := Ok(there);
      case Ok(Refused) => r := Err(Http);
      case Ok(_) => r := Ok(done);
    }

    method CreateOrAdoptProject() returns (r: Step)
      modifies this
      ensures (Now(), r) == ProjectStep(cfg, faults, old(Now()))
    {
      var created := Request(CreateProject);
      if created.Err? {
        return Err(created.error);
      }
      if !created.value.Exists? {
        return Ok(cfg.number);
      }
      var project := Request(ReadProject(cfg.projectId));
      if project.Err? {
        return if project.error.Transport? then Err(Transport) else Ok("");
      }
      if !project.value.Found? {
        return Ok("");
      }
      var number := project.value.number;
      if project.value.deleting {
        r := Create(Undelete, number, number);
      } else {
        r := Ok(number);
      }
    }

    method PrepareProject() returns (r: Step)
      modifies this
      ensures (Now(), r) == ProjectSteps(cfg, faults, old(Now()))
    {
      r := CreateOrAdoptProject();
      if r.Err? {
        return;
      }
      var labelled := Request(PatchLabels);
      if labelled.Err? && labelled.error.Transport? {
        return Err(Transport);
      }
      var billed := Create(LinkBilling, "", "");
      if billed.Err? {
        return billed;
      }
      var enabled := Create(EnableApis, "", "");
      if enabled.Err? {
        return enabled;
      }
    }

    method CreateSubnets() returns (r: Step)
      modifies this
      ensures (Now(), r) == SubnetSteps(cfg, faults, old(Now()), 0)
    {
      for i := 0 to |Cidrs(cfg)|
        invariant SubnetSteps(cfg, faults, Now(), i) == SubnetSteps(cfg, faults, old(Now()), 0)
      {
        r := Create(CreateSubnet(i), "", "");
        if r.Err? {
          return;
        }
      }
      r := Ok("");
    }

    method PrepareNetwork() returns (r: Step)
      modifies this
      ensures (Now(), r) == NetworkSteps(cfg, faults, old(Now()))
    {
      if cfg.network.Some? {
        r := Create(CreateNetwork, "", "");
        if r.Err? {
          return;
        }
      }
      r := CreateSubnets();
      if r.Err? {
        return;
      }
      if cfg.zone.Some? {
        r := Create(CreateZone, "", "");
      } else {
        r := Ok("");
      }
    }

    method RunSequence() returns (r: Result<Handle, Failure>)
      modifies this
      ensures (Now(), r) == Sequence(cfg, faults, old(Now()))
    {
      var number := PrepareProject();
      if number.Err? {
        return Err(number.error);
      }
      var email := Create(CreateAccount, NewEmail(cfg), ConventionalEmail(cfg));
      if email.Err? {
        return Err(email.error);
      }
      var networked := PrepareNetwork();
      if networked.Err? {
        return Err(networked.error);
      }
      r := Ok(Stamp(cfg, number.value, email.value));
    }

    /** The call itself: what it hands back and leaves behind, and what a new handle vouches for. */
    method ProvisionEnclave(existing: Option<Handle>) returns (r: Result<Handle, Failure>)
      requires sent == 0
      modifies this
      ensures (Now(), r) == Provision(cfg, existing, faults, old(cloud))
      ensures r.Ok? && Some(r.value) != existing ==> Ready(cfg, cloud)
      ensures Settled(cfg, cloud) == Settled(cfg, old(cloud)) && InOrder(cfg, old(cloud), cloud)
    {
      BuiltInOrder(cfg, existing, faults, cloud);
      ProvisionMeaning(cfg, existing, faults, cloud);
      if existing.Some? && existing.value.complete && existing.value.projectId.Some? {
        var seen := Request(ReadProject(existing.value.projectId.value));
        if seen.Err? && seen.error.Transport? {
          return Err(Transport);
        }
        if seen.Ok? && seen.value.Found? {
          return Ok(existing.value);
        }
      }
      r := RunSequence();
    }
  }

  // ----- where every run is heading -----

  function WantedSubnets(cfg: Config): map<(string, nat), Subnet> {
    map i: nat | 0 <= i < |Cidrs(cfg)| :: (cfg.region, i) := WantedSubnet(cfg, i)
  }

  /** The cloud with everything the enclave asks for; what was there before stays as it was. */
  function Settled(cfg: Config, c: Cloud): Cloud {
    Cloud(
      Some(Project(if c.project.Some? then c.project.value.number else cfg.number, false)),
      Some(cfg.enclave),
      Some(cfg.billingAccount),
      c.apis + cfg.services,
      map[AccountId(cfg) := NewEmail(cfg)] + c.accounts,
      c.network || cfg.network.Some?,
      WantedSubnets(cfg) + c.subnets,
      if c.zone.Some? then c.zone else if cfg.zone.Some? then Some(WantedZone(cfg)) else None,
      c.others)
  }

  /** The cloud has, in an active project, what a request asks for. */
  predicate Has(cfg: Config, c: Cloud, q: Request) {
    match q
    case CreateProject => c.project.Some?
    case ReadProject(id) => Readable(cfg, c, id)
    case Undelete => Active(c)
    case PatchLabels => Active(c) && c.labels == Some(cfg.enclave)
    case LinkBilling => Active(c) && c.billing == Some(cfg.billingAccount)
    case EnableApis => Active(c) && cfg.services <= c.apis
    case CreateAccount => Active(c) && AccountId(cfg) in c.accounts
    case CreateNetwork => Active(c) && c.network
    case CreateSubnet(i) => Active(c) && c.network && (cfg.region, i) in c.subnets
    case CreateZone => Active(c) && c.zone.Some?
  }

  /** Requests the enclave's settings call for. */
  predicate Wanted(cfg: Config, q: Request) {
    match q
    case CreateNetwork => cfg.network.Some?
    case CreateSubnet(i) => i < |Cidrs(cfg)|
    case CreateZone => cfg.zone.Some?
    case _ => true
  }

  /** Project, billing, APIs, account, network, subnets and zone are all there. */
  predicate Ready(cfg: Config, c: Cloud) {
    && Active(c)
    && c.billing == Some(cfg.billingAccount)
    && cfg.services <= c.apis
    && AccountId(cfg) in c.accounts
    && (cfg.network.Some? ==> c.network)
    && (forall i: nat :: i < |Cidrs(cfg)| ==> (cfg.region, i) in c.subnets)
    && (cfg.zone.Some? ==> c.zone.Some?)
  }

  ghost predicate SubnetsBelow(cfg: Config, c: Cloud, n: nat) {
    forall i: nat :: i < n ==> Has(cfg, c, CreateSubnet(i))
  }

  function Unlabelled(c: Cloud): Cloud {
    c.(labels := None)
  }

  /** Nothing already there was lost, and the destination is the same. */
  ghost predicate Forward(cfg: Config, c: Cloud, d: Cloud) {
    && Settled(cfg, d) == Settled(cfg, c)
    && forall q :: Has(cfg, c, q) ==> Has(cfg, d, q)
  }

  lemma {:induction false} ReadyIsSettled(cfg: Config, c: Cloud)
    requires Ready(cfg, c)
    ensures Unlabelled(Settled(cfg, c)) == Unlabelled(c)
  {
    assert c.apis + cfg.services == c.apis;
    assert map[AccountId(cfg) := NewEmail(cfg)] + c.accounts == c.accounts;
    assert WantedSubnets(cfg) + c.subnets == c.subnets;
  }

  lemma {:induction false} UpdateUnder<K, V>(wanted: map<K, V>, there: map<K, V>, k: K)
    requires k in wanted && k !in there
    ensures wanted + there[k := wanted[k]] == wanted + there
  {
  }

  lemma {:induction false} ServeSettled(cfg: Config, c: Cloud, q: Request)
    requires Wanted(cfg, q)
    ensures Settled(cfg, Serve(cfg, c, q).0) == Settled(cfg, c)
  {
    match q {
      case EnableApis =>
        assert (c.apis + cfg.services) + cfg.services == c.apis + cfg.services;
      case CreateAccount =>
        if AccountId(cfg) !in c.accounts {
          UpdateUnder(map[AccountId(cfg) := NewEmail(cfg)], c.accounts, AccountId(cfg));
        }
      case CreateSubnet(i) =>
        if (cfg.region, i) !in c.subnets {
          assert (cfg.region, i) in WantedSubnets(cfg) && WantedSubnets(cfg)[(cfg.region, i)] == WantedSubnet(cfg, i);
          UpdateUnder(WantedSubnets(cfg), c.subnets, (cfg.region, i));
        }
      case _ =>
    }
  }

  lemma {:induction false} ServeKeeps(cfg: Config, c: Cloud, q: Request, p: Request)
    requires Has(cfg, c, p)
    ensures Has(cfg, Serve(cfg, c, q).0, p)
  {
  }

  /** A request never turns the run away from its destination; one that is granted leaves what it asks for. */
  lemma {:induction false} SendMeaning(cfg: Config, f: Schedule, s: Session, q: Request)
    requires Wanted(cfg, q)
    ensures var (s1, r) := Send(cfg, f, s, q);
            Forward(cfg, s.cloud, s1.cloud) && (r.Ok? && (r.value.Done? || r.value.Exists?) ==> Has(cfg, s1.cloud, q))
  {
    hide Settled;
    ServeSettled(cfg, s.cloud, q);
    forall p | Has(cfg, s.cloud, p) ensures Has(cfg, Serve(cfg, s.cloud, q).0, p) {
      ServeKeeps(cfg, s.cloud, q, p);
    }
  }

  lemma {:induction false} EnsureMeaning(cfg: Config, f: Schedule, s: Session, q: Request, done: string, there: string)
    requires Wanted(cfg, q) && !q.ReadProject?
    ensures var (s1, r) := Ensure(cfg, f, s, q, done, there);
            Forward(cfg, s.cloud, s1.cloud) && (r.Ok? ==> Has(cfg, s1.cloud, q))
  {
    hide Settled, Has;
    SendMeaning(cfg, f, s, q);
  }

  lemma {:induction false} ForwardChain(cfg: Config, a: Cloud, b: Cloud, c: Cloud)
    requires Forward(cfg, a, b) && Forward(cfg, b, c)
    ensures Forward(cfg, a, c)
  {
    hide Settled, Has;
  }

  // ----- what each group of steps achieves, whatever fails -----

  lemma {:induction false} AdoptForward(cfg: Config, f: Schedule, s: Session)
    ensures Forward(cfg, s.cloud, AdoptProject(cfg, f, s).0.cloud)
  {
    hide Settled;
    SendMeaning(cfg, f, s, ReadProject(cfg.projectId));
    var (s1, r) := Send(cfg, f, s, ReadProject(cfg.projectId));
    if r.Ok? && r.value.Found? && r.value.deleting {
      EnsureMeaning(cfg, f, s1, Undelete, r.value.number, r.value.number);
      ForwardChain(cfg, s.cloud, s1.cloud, AdoptProject(cfg, f, s).0.cloud);
    }
  }

  lemma {:induction false} ProjectForward(cfg: Config, f: Schedule, s: Session)
    ensures Forward(cfg, s.cloud, ProjectStep(cfg, f, s).0.cloud)
  {
    hide Settled;
    SendMeaning(cfg, f, s, CreateProject);
    var s1 := Send(cfg, f, s, CreateProject).0;
    AdoptForward(cfg, f, s1);
    ForwardChain(cfg, s.cloud, s1.cloud, AdoptProject(cfg, f, s1).0.cloud);
  }

  /** Billing and APIs are only ever done in an active project. */
  lemma {:induction false} ProjectStepsMeaning(cfg: Config, f: Schedule, s: Session)
    ensures var (s1, r) := ProjectSteps(cfg, f, s);
            && Forward(cfg, s.cloud, s1.cloud)
            && (r.Ok? ==> Has(cfg, s1.cloud, LinkBilling) && Has(cfg, s1.cloud, EnableApis))
  {
    hide Settled, Serve, Has, Ask, AdoptProject;
    ProjectForward(cfg, f, s);
    var s1 := ProjectStep(cfg, f, s).0;
    SendMeaning(cfg, f, s1, PatchLabels);
    var s2 := LabelStep(cfg, f, s1).0;
    EnsureMeaning(cfg, f, s2, LinkBilling, "", "");
    var s3 := Ensure(cfg, f, s2, LinkBilling, "", "").0;
    EnsureMeaning(cfg, f, s3, EnableApis, "", "");
    var s4 := Ensure(cfg, f, s3, EnableApis, "", "").0;
    ForwardChain(cfg, s.cloud, s1.cloud, s2.cloud);
    ForwardChain(cfg, s.cloud, s2.cloud, s3.cloud);
    ForwardChain(cfg, s.cloud, s3.cloud, s4.cloud);
  }

  lemma {:induction false} SubnetsExtend(cfg: Config, c: Cloud, d: Cloud, i: nat)
    requires Forward(cfg, c, d) && Has(cfg, d, CreateSubnet(i)) && SubnetsBelow(cfg, c, i)
    ensures SubnetsBelow(cfg, d, i + 1)
  {
    hide Settled;
    forall k: nat | k < i + 1 ensures Has(cfg, d, CreateSubnet(k)) {
      assert k < i ==> Has(cfg, c, CreateSubnet(k));
    }
  }

  /** The cloud after one subnet, if that went well, and after the rest. */
  lemma {:induction false} SubnetsUnfold(cfg: Config, f: Schedule, s: Session, i: nat)
    requires i < |Cidrs(cfg)|
    ensures var (s1, r) := Ensure(cfg, f, s, CreateSubnet(i), "", "");
            SubnetSteps(cfg, f, s, i) == if r.Err? then (s1, r) else SubnetSteps(cfg, f, s1, i + 1)
  {
  }

  lemma {:induction false} SubnetsForward(cfg: Config, f: Schedule, s: Session, i: nat)
    requires i <= |Cidrs(cfg)|
    ensures Forward(cfg, s.cloud, SubnetSteps(cfg, f, s, i).0.cloud)
    decreases |Cidrs(cfg)| - i
  {
    hide Settled, Has, Ensure;
    if i < |Cidrs(cfg)| {
      var end := SubnetSteps(cfg, f, s, i);
      SubnetsUnfold(cfg, f, s, i);
      EnsureMeaning(cfg, f, s, CreateSubnet(i), "", "");
      var (s1, r) := Ensure(cfg, f, s, CreateSubnet(i), "", "");
      if r.Ok? {
        SubnetsForward(cfg, f, s1, i + 1);
        ForwardChain(cfg, s.cloud, s1.cloud, end.0.cloud);
      }
    }
  }

  lemma {:induction false} SubnetsMeaning(cfg: Config, f: Schedule, s: Session, i: nat)
    requires i <= |Cidrs(cfg)| && SubnetsBelow(cfg, s.cloud, i) && SubnetSteps(cfg, f, s, i).1.Ok?
    ensures SubnetsBelow(cfg, SubnetSteps(cfg, f, s, i).0.cloud, |Cidrs(cfg)|)
    decreases |Cidrs(cfg)| - i
  {
    hide Settled, Has, Ensure;
    if i < |Cidrs(cfg)| {
      SubnetsUnfold(cfg, f, s, i);
      EnsureMeaning(cfg, f, s, CreateSubnet(i), "", "");
      var s1 := Ensure(cfg, f, s, CreateSubnet(i), "", "").0;
      SubnetsExtend(cfg, s.cloud, s1.cloud, i);
      SubnetsMeaning(cfg, f, s1, i + 1);
    }
  }

  lemma {:induction false} NetworkStepsMeaning(cfg: Config, f: Schedule, s: Session)
    ensures var (s1, r) := NetworkSteps(cfg, f, s);
            && Forward(cfg, s.cloud, s1.cloud)
            && (r.Ok? ==> (cfg.network.Some? ==> Has(cfg, s1.cloud, CreateNetwork))
                          && SubnetsBelow(cfg, s1.cloud, |Cidrs(cfg)|)
                          && (cfg.zone.Some? ==> Has(cfg, s1.cloud, CreateZone)))
  {
    hide Settled, Has, Ensure;
    var s1 := NetworkStep(cfg, f, s).0;
    if cfg.network.Some? {
      EnsureMeaning(cfg, f, s, CreateNetwork, "", "");
    }
    SubnetsForward(cfg, f, s1, 0);
    var (s2, r2) := SubnetSteps(cfg, f, s1, 0);
    if r2.Ok? {
      SubnetsMeaning(cfg, f, s1, 0);
    }
    if cfg.zone.Some? {
      EnsureMeaning(cfg, f, s2, CreateZone, "", "");
    }
    ForwardChain(cfg, s.cloud, s1.cloud, s2.cloud);
    ForwardChain(cfg, s.cloud, s2.cloud, ZoneStep(cfg, f, s2).0.cloud);
  }

  lemma {:induction false} ReadyFromParts(cfg: Config, c: Cloud)
    requires Has(cfg, c, LinkBilling) && Has(cfg, c, EnableApis) && Has(cfg, c, CreateAccount)
    requires cfg.network.Some? ==> Has(cfg, c, CreateNetwork)
    requires SubnetsBelow(cfg, c, |Cidrs(cfg)|)
    requires cfg.zone.Some? ==> Has(cfg, c, CreateZone)
    ensures Ready(cfg, c)
  {
    forall i: nat | i < |Cidrs(cfg)| ensures (cfg.region, i) in c.subnets {
      assert Has(cfg, c, CreateSubnet(i));
    }
  }

  lemma {:induction false} SequenceMeaning(cfg: Config, f: Schedule, s: Session)
    ensures var (s1, r) := Sequence(cfg, f, s);
            && Forward(cfg, s.cloud, s1.cloud)
            && (r.Ok? ==> Ready(cfg, s1.cloud))
  {
    hide Settled, Has, Ensure, ProjectSteps, NetworkSteps, Ready;
    ProjectStepsMeaning(cfg, f, s);
    var s1 := ProjectSteps(cfg, f, s).0;
    EnsureMeaning(cfg, f, s1, CreateAccount, NewEmail(cfg), ConventionalEmail(cfg));
    var s2 := AccountStep(cfg, f, s1).0;
    NetworkStepsMeaning(cfg, f, s2);
    var s3 := NetworkSteps(cfg, f, s2).0;
    ForwardChain(cfg, s.cloud, s1.cloud, s2.cloud);
    ForwardChain(cfg, s.cloud, s2.cloud, s3.cloud);
    if Sequence(cfg, f, s).1.Ok? {
      ReadyFromParts(cfg, s3.cloud);
    }
  }

  /** Under any failures: a handle built by a call vouches for the cloud, and no call changes the destination. */
  lemma {:induction false} ProvisionMeaning(cfg: Config, existing: Option<Handle>, f: Schedule, c: Cloud)
    ensures var (s, r) := Provision(cfg, existing, f, c);
            && Settled(cfg, s.cloud) == Settled(cfg, c)
            && (r.Ok? && (Some(r.value) != existing || !Skippable(existing)) ==>
                  Ready(cfg, s.cloud) && Unlabelled(s.cloud) == Unlabelled(Settled(cfg, c)))
  {
    hide Settled, Has, Sequence, Ready;
    var s := Session(c, 0);
    if Skippable(existing) {
      var q := ReadProject(existing.value.projectId.value);
      SendMeaning(cfg, f, s, q);
      SequenceMeaning(cfg, f, Send(cfg, f, s, q).0);
    } else {
      SequenceMeaning(cfg, f, s);
    }
    var (s1, r) := Provision(cfg, existing, f, c);
    if Ready(cfg, s1.cloud) {
      ReadyIsSettled(cfg, s1.cloud);
    }
  }

  // ----- the order of the steps, whatever fails -----

  /** Between two moments of a call, each kind of resource appears only when everything before it is in place. */
  ghost predicate InOrder(cfg: Config, c: Cloud, d: Cloud) {
    && (d.labels != c.labels || d.billing != c.billing ==> Active(d))
    && (d.apis != c.apis ==> Has(cfg, d, LinkBilling))
    && (d.accounts != c.accounts ==> Has(cfg, d, LinkBilling) && Has(cfg, d, EnableApis))
    && (NetworkingTouched(c, d) ==> Has(cfg, d, LinkBilling) && Has(cfg, d, EnableApis) && Has(cfg, d, CreateAccount))
    && NetworkInOrder(cfg, c, d)
  }

  ghost predicate NetworkingTouched(c: Cloud, d: Cloud) {
    d.network != c.network || d.subnets != c.subnets || d.zone != c.zone
  }

  /** Subnets follow the network, one after the other, and the zone follows the last of them. */
  ghost predicate NetworkInOrder(cfg: Config, c: Cloud, d: Cloud) {
    && (d.subnets != c.subnets ==> Has(cfg, d, CreateNetwork))
    && (forall i: nat ::
          (cfg.region, i) in d.subnets && (cfg.region, i) !in c.subnets ==>
            i < |Cidrs(cfg)| && SubnetsBelow(cfg, d, i))
    && (d.zone != c.zone ==> SubnetsBelow(cfg, d, |Cidrs(cfg)|))
  }

  lemma {:induction false} ProjectStepsInOrder(cfg: Config, f: Schedule, s: Session)
    ensures var (c, d) := (s.cloud, ProjectSteps(cfg, f, s).0.cloud);
            && d.accounts == c.accounts && !NetworkingTouched(c, d)
            && (d.labels != c.labels || d.billing != c.billing ==> Active(d))
            && (d.apis != c.apis ==> Has(cfg, d, LinkBilling))
  {
    hide ProjectStep, LabelStep, Ensure, Settled;
    ProjectOnly(cfg, f, s);
    var s1 := ProjectStep(cfg, f, s).0;
    LabelOnly(cfg, f, s1);
    var s2 := LabelStep(cfg, f, s1).0;
    BillingOnly(cfg, f, s2);
    EnsureMeaning(cfg, f, s2, LinkBilling, "", "");
    var s3 := Ensure(cfg, f, s2, LinkBilling, "", "").0;
    ApisOnly(cfg, f, s3);
  }

  lemma {:induction false} LabelOnly(cfg: Config, f: Schedule, s: Session)
    ensures var d := LabelStep(cfg, f, s).0.cloud;
            d.(labels := s.cloud.labels) == s.cloud && (d != s.cloud ==> Active(d))
  {
  }

  lemma {:induction false} BillingOnly(cfg: Config, f: Schedule, s: Session)
    ensures var d := Ensure(cfg, f, s, LinkBilling, "", "").0.cloud;
            d.(billing := s.cloud.billing) == s.cloud && (d != s.cloud ==> Active(d))
  {
  }

  lemma {:induction false} ApisOnly(cfg: Config, f: Schedule, s: Session)
    ensures var d := Ensure(cfg, f, s, EnableApis, "", "").0.cloud; d.(apis := s.cloud.apis) == s.cloud
  {
  }

  lemma {:induction false} AdoptOnly(cfg: Config, f: Schedule, s: Session)
    ensures AdoptProject(cfg, f, s).0.cloud.(project := s.cloud.project) == s.cloud
  {
  }

  lemma {:induction false} ProjectOnly(cfg: Config, f: Schedule, s: Session)
    ensures ProjectStep(cfg, f, s).0.cloud.(project := s.cloud.project) == s.cloud
  {
    hide AdoptProject;
    AdoptOnly(cfg, f, Send(cfg, f, s, CreateProject).0);
  }

  lemma {:induction false} SubnetsInOrder(cfg: Config, f: Schedule, s: Session, i: nat)
    requires i <= |Cidrs(cfg)| && SubnetsBelow(cfg, s.cloud, i)
    ensures var d := SubnetSteps(cfg, f, s, i).0.cloud;
            && d.(subnets := s.cloud.subnets) == s.cloud
            && NetworkInOrder(cfg, s.cloud, d)
    decreases |Cidrs(cfg)| - i
  {
    hide NetworkInOrder, Settled, Ensure, Has;
    if i == |Cidrs(cfg)| {
      NetworkInOrderFrom(cfg, s.cloud);
    } else {
      SubnetsUnfold(cfg, f, s, i);
      OneSubnetInOrder(cfg, f, s, i);
      EnsureMeaning(cfg, f, s, CreateSubnet(i), "", "");
      var (s1, r) := Ensure(cfg, f, s, CreateSubnet(i), "", "");
      if r.Ok? {
        SubnetsExtend(cfg, s.cloud, s1.cloud, i);
        SubnetsInOrder(cfg, f, s1, i + 1);
        SubnetsForward(cfg, f, s1, i + 1);
        NetworkInOrderChain(cfg, s.cloud, s1.cloud, SubnetSteps(cfg, f, s1, i + 1).0.cloud);
      }
    }
  }

  lemma {:induction false} NetworkInOrderFrom(cfg: Config, c: Cloud)
    ensures NetworkInOrder(cfg, c, c)
  {
  }

  lemma {:induction false} OneSubnetOnly(cfg: Config, f: Schedule, s: Session, i: nat)
    requires i < |Cidrs(cfg)|
    ensures var (c, d) := (s.cloud, Ensure(cfg, f, s, CreateSubnet(i), "", "").0.cloud);
            d == c || (Active(c) && c.network && d == c.(subnets := c.subnets[(cfg.region, i) := WantedSubnet(cfg, i)]))
  {
  }

  lemma {:induction false} OneSubnetInOrder(cfg: Config, f: Schedule, s: Session, i: nat)
    requires i < |Cidrs(cfg)| && SubnetsBelow(cfg, s.cloud, i)
    ensures var d := Ensure(cfg, f, s, CreateSubnet(i), "", "").0.cloud;
            d.(subnets := s.cloud.subnets) == s.cloud && NetworkInOrder(cfg, s.cloud, d)
  {
    hide Ensure, Settled;
    OneSubnetOnly(cfg, f, s, i);
    var d := Ensure(cfg, f, s, CreateSubnet(i), "", "").0.cloud;
    forall k: nat | k < i ensures Has(cfg, d, CreateSubnet(k)) {
      assert Has(cfg, s.cloud, CreateSubnet(k));
    }
  }

  lemma {:induction false} NetworkInOrderChain(cfg: Config, a: Cloud, b: Cloud, c: Cloud)
    requires NetworkInOrder(cfg, a, b) && NetworkInOrder(cfg, b, c) && Forward(cfg, b, c)
    ensures NetworkInOrder(cfg, a, c)
  {
    hide Settled, Has;
  }

  lemma {:induction false} NetworkStepsInOrder(cfg: Config, f: Schedule, s: Session)
    ensures var d := NetworkSteps(cfg, f, s).0.cloud;
            && d.(network := s.cloud.network, subnets := s.cloud.subnets, zone := s.cloud.zone) == s.cloud
            && (NetworkingTouched(s.cloud, d) ==> Active(s.cloud))
            && NetworkInOrder(cfg, s.cloud, d)
  {
    hide Settled;
    var (s1, r1) := NetworkStep(cfg, f, s);
    if r1.Ok? {
      SubnetsInOrder(cfg, f, s1, 0);
      var (s2, r2) := SubnetSteps(cfg, f, s1, 0);
      if r2.Ok? {
        SubnetsMeaning(cfg, f, s1, 0);
        ZoneInOrder(cfg, f, s2);
        if cfg.zone.Some? {
          EnsureMeaning(cfg, f, s2, CreateZone, "", "");
        }
        NetworkInOrderChain(cfg, s1.cloud, s2.cloud, ZoneStep(cfg, f, s2).0.cloud);
      }
    }
  }

  lemma {:induction false} ZoneInOrder(cfg: Config, f: Schedule, s: Session)
    requires SubnetsBelow(cfg, s.cloud, |Cidrs(cfg)|)
    ensures var d := ZoneStep(cfg, f, s).0.cloud;
            d.(zone := s.cloud.zone) == s.cloud && NetworkInOrder(cfg, s.cloud, d) && (d != s.cloud ==> Active(s.cloud))
  {
    hide Ensure, Settled;
    ZoneOnly(cfg, f, s);
    var d := ZoneStep(cfg, f, s).0.cloud;
    forall k: nat | k < |Cidrs(cfg)| ensures Has(cfg, d, CreateSubnet(k)) {
      assert Has(cfg, s.cloud, CreateSubnet(k));
    }
  }

  lemma {:induction false} ZoneOnly(cfg: Config, f: Schedule, s: Session)
    ensures var d := Ensure(cfg, f, s, CreateZone, "", "").0.cloud;
            d.(zone := s.cloud.zone) == s.cloud && (d != s.cloud ==> Active(s.cloud))
  {
  }

  lemma {:induction false} InOrderFrom(cfg: Config, c: Cloud)
    ensures InOrder(cfg, c, c)
  {
  }

  /** Wherever a call is cut off, what it has built so far was built in order. */
  lemma {:induction false} BuiltInOrder(cfg: Config, existing: Option<Handle>, f: Schedule, c: Cloud)
    ensures InOrder(cfg, c, Provision(cfg, existing, f, c).0.cloud)
  {
    hide InOrder;
    InOrderFrom(cfg, c);
    hide Sequence;
    SequenceInOrder(cfg, f, Session(c, 0));
    SequenceInOrder(cfg, f, Session(c, 1));
  }

  lemma {:induction false} SequenceInOrder(cfg: Config, f: Schedule, s: Session)
    ensures InOrder(cfg, s.cloud, Sequence(cfg, f, s).0.cloud)
  {
    hide Settled, ProjectSteps, NetworkSteps, Ensure;
    ProjectStepsInOrder(cfg, f, s);
    ProjectStepsMeaning(cfg, f, s);
    var (s1, number) := ProjectSteps(cfg, f, s);
    if number.Ok? {
      AccountOnly(cfg, f, s1);
      EnsureMeaning(cfg, f, s1, CreateAccount, NewEmail(cfg), ConventionalEmail(cfg));
      var (s2, email) := AccountStep(cfg, f, s1);
      if email.Ok? {
        NetworkStepsInOrder(cfg, f, s2);
        NetworkStepsMeaning(cfg, f, s2);
      }
    }
  }

  lemma {:induction false} AccountOnly(cfg: Config, f: Schedule, s: Session)
    ensures AccountStep(cfg, f, s).0.cloud.(accounts := s.cloud.accounts) == s.cloud
  {
  }

  // ----- a call nothing fails in -----

  const QUIET: Schedule := (t: nat) => NoFault

  function Quiet(cfg: Config, existing: Option<Handle>, c: Cloud): (Session, Result<Handle, Failure>) {
    Provision(cfg, existing, QUIET, c)
  }

  /** Whether a call without failures gives an old handle back. */
  predicate Skips(cfg: Config, existing: Option<Handle>, c: Cloud) {
    Skippable(existing) && Readable(cfg, c, existing.value.projectId.value)
  }

  /** The handle of a full pass over the sequence. */
  function FreshHandle(cfg: Config, c: Cloud): Handle {
    Stamp(cfg, if c.project.Some? then c.project.value.number else cfg.number,
          if AccountId(cfg) in c.accounts then ConventionalEmail(cfg) else NewEmail(cfg))
  }

  lemma {:induction false} QuietProject(cfg: Config, s: Session)
    ensures var (s1, r) := ProjectSteps(cfg, QUIET, s);
            && r == Ok(if s.cloud.project.Some? then s.cloud.project.value.number else cfg.number)
            && s1.cloud.labels == Some(cfg.enclave)
            && s1.cloud.accounts == s.cloud.accounts && s1.cloud.network == s.cloud.network
            && s1.cloud.subnets == s.cloud.subnets && s1.cloud.zone == s.cloud.zone
  {
  }

  lemma {:induction false} QuietSubnets(cfg: Config, s: Session, i: nat)
    requires i <= |Cidrs(cfg)| && Active(s.cloud) && (cfg.network.Some? ==> s.cloud.network)
    ensures var (s1, r) := SubnetSteps(cfg, QUIET, s, i);
            r == Ok("") && s1.cloud.labels == s.cloud.labels && Active(s1.cloud)
    decreases |Cidrs(cfg)| - i
  {
    if i < |Cidrs(cfg)| {
      QuietSubnets(cfg, Ensure(cfg, QUIET, s, CreateSubnet(i), "", "").0, i + 1);
    }
  }

  lemma {:induction false} QuietNetwork(cfg: Config, s: Session)
    requires Active(s.cloud)
    ensures var (s1, r) := NetworkSteps(cfg, QUIET, s);
            r == Ok("") && s1.cloud.labels == s.cloud.labels
  {
    var s1 := NetworkStep(cfg, QUIET, s).0;
    QuietSubnets(cfg, s1, 0);
  }

  /** Without failures the sequence always gets through, from whatever state it finds. */
  lemma {:induction false} QuietSequence(cfg: Config, s: Session)
    ensures var (s1, r) := Sequence(cfg, QUIET, s);
            s1.cloud == Settled(cfg, s.cloud) && r == Ok(FreshHandle(cfg, s.cloud))
  {
    hide Settled, ProjectSteps, NetworkSteps, Ready;
    QuietProject(cfg, s);
    ProjectStepsMeaning(cfg, QUIET, s);
    var s1 := ProjectSteps(cfg, QUIET, s).0;
    var s2 := AccountStep(cfg, QUIET, s1).0;
    QuietNetwork(cfg, s2);
    SequenceMeaning(cfg, QUIET, s);
    var s3 := NetworkSteps(cfg, QUIET, s2).0;
    ReadyIsSettled(cfg, s3.cloud);
    SettledLabels(cfg, s.cloud, s3.cloud);
  }

  lemma {:induction false} SettledLabels(cfg: Config, c: Cloud, d: Cloud)
    requires Settled(cfg, d) == Settled(cfg, c)
    requires Unlabelled(Settled(cfg, d)) == Unlabelled(d) && d.labels == Some(cfg.enclave)
    ensures d == Settled(cfg, c)
  {
  }

  lemma {:induction false} QuietMeaning(cfg: Config, existing: Option<Handle>, c: Cloud)
    ensures var (s, r) := Quiet(cfg, existing, c);
            if Skips(cfg, existing, c) then s.cloud == c && r == Ok(existing.value)
            else s.cloud == Settled(cfg, c) && r == Ok(FreshHandle(cfg, c))
  {
    hide Settled, Sequence;
    QuietSequence(cfg, Session(c, 0));
    QuietSequence(cfg, Session(c, 1));
  }

  // ----- calls that are cut short, and calls that follow them -----

  /** The cloud after several calls, each with its own failures, all given the same handle. */
  function AfterCalls(cfg: Config, existing: Option<Handle>, c: Cloud, calls: seq<Schedule>): Cloud
    decreases |calls|
  {
    if calls == [] then c
    else AfterCalls(cfg, existing, Provision(cfg, existing, calls[0], c).0.cloud, calls[1..])
  }

  lemma {:induction false} CallsKeepDestination(cfg: Config, existing: Option<Handle>, c: Cloud, calls: seq<Schedule>)
    ensures Settled(cfg, AfterCalls(cfg, existing, c, calls)) == Settled(cfg, c)
    decreases |calls|
  {
    hide Settled, Provision;
    if calls != [] {
      ProvisionMeaning(cfg, existing, calls[0], c);
      CallsKeepDestination(cfg, existing, Provision(cfg, existing, calls[0], c).0.cloud, calls[1..]);
    }
  }

  /**
   Provisioning can be resumed: after any number of calls that failed or stopped anywhere, a call that gets
   through leaves the cloud one undisturbed call would have left, and hands back the same handle. Only the
   e-mail address can differ, and only when the account was made by a call whose handle was never seen.
   */
  lemma {:induction false} Resumable(cfg: Config, existing: Option<Handle>, c: Cloud, calls: seq<Schedule>)
    requires !Skippable(existing)
    ensures var d := AfterCalls(cfg, existing, c, calls);
            var (resumed, once) := (Quiet(cfg, existing, d), Quiet(cfg, existing, c));
            && resumed.1.Ok? && once.1.Ok?
            && resumed.0.cloud == once.0.cloud
            && resumed.1.value.(email := "") == once.1.value.(email := "")
            && (resumed.1 == once.1 <==>
                  || NewEmail(cfg) == ConventionalEmail(cfg)
                  || (AccountId(cfg) in d.accounts <==> AccountId(cfg) in c.accounts))
  {
    hide Provision;
    var d := AfterCalls(cfg, existing, c, calls);
    CallsKeepDestination(cfg, existing, c, calls);
    QuietMeaning(cfg, existing, c);
    QuietMeaning(cfg, existing, d);
    SameNumber(cfg, c, d);
  }

  lemma {:induction false} SameNumber(cfg: Config, c: Cloud, d: Cloud)
    requires Settled(cfg, d) == Settled(cfg, c)
    ensures FreshHandle(cfg, d).number == FreshHandle(cfg, c).number
  {
  }

  // ----- where a finished handle gets in the way -----

  /** Any interrupted call can be made good by calling again with the same handle. */
  ghost predicate Resumes(cfg: Config, existing: Option<Handle>) {
    forall c: Cloud, f: Schedule ::
      Quiet(cfg, existing, Provision(cfg, existing, f, c).0.cloud).0.cloud == Quiet(cfg, existing, c).0.cloud
  }

  /** Read refused, then everything up to billing goes well, then the process stops. */
  function StopsAfterBilling(t: nat): Fault {
    if t == 0 then Denied else if t <= 4 then NoFault else NotSent
  }

  /** With a handle that counts as finished, a rerun stops at the first look: exactly then resuming can fail. */
  lemma {:induction false} ResumesIffNotSkippable(cfg: Config, existing: Option<Handle>)
    ensures Resumes(cfg, existing) <==> !Skippable(existing)
  {
    hide Provision, Settled;
    if Skippable(existing) {
      SkippedHalfway(cfg, existing);
    } else {
      forall c: Cloud, f: Schedule
        ensures Quiet(cfg, existing, Provision(cfg, existing, f, c).0.cloud).0.cloud == Quiet(cfg, existing, c).0.cloud
      {
        ProvisionMeaning(cfg, existing, f, c);
        QuietMeaning(cfg, existing, c);
        QuietMeaning(cfg, existing, Provision(cfg, existing, f, c).0.cloud);
      }
    }
  }

  lemma {:induction false} SkippedHalfway(cfg: Config, existing: Option<Handle>)
    requires Skippable(existing)
    ensures !Resumes(cfg, existing)
  {
    var c := Cloud(Some(Project("1", false)), None, None, {}, map[], false, map[], None,
                   {existing.value.projectId.value});
    var d := Provision(cfg, existing, StopsAfterBilling, c).0.cloud;
    BilledHalfway(cfg, existing, c);
    QuietMeaning(cfg, existing, c);
    QuietMeaning(cfg, existing, d);
    assert Quiet(cfg, existing, d).0.cloud != Quiet(cfg, existing, c).0.cloud;
  }

  lemma {:induction false} BilledHalfway(cfg: Config, existing: Option<Handle>, c: Cloud)
    requires Skippable(existing) && Active(c) && existing.value.projectId.value in c.others
    ensures var d := Provision(cfg, existing, StopsAfterBilling, c).0.cloud;
            d.billing == Some(cfg.billingAccount) && d.others == c.others
  {
    var f: Schedule := StopsAfterBilling;
    var s1 := Send(cfg, f, Session(c, 0), ReadProject(existing.value.projectId.value)).0;
    assert ProjectStep(cfg, f, s1).0 == Session(c, 3);
    assert LabelStep(cfg, f, Session(c, 3)).0.sent == 4;
  }

  /** A call without failures leaves everything in place unless it hands an old handle back over a gap. */
  lemma {:induction false} ReadyUnlessSkipped(cfg: Config, existing: Option<Handle>, c: Cloud)
    ensures Ready(cfg, Quiet(cfg, existing, c).0.cloud) <==> (Skips(cfg, existing, c) ==> Ready(cfg, c))
  {
    hide Provision, Settled, Ready;
    QuietMeaning(cfg, existing, c);
    SettledIsReady(cfg, c);
  }

  lemma {:induction false} SettledIsReady(cfg: Config, c: Cloud)
    ensures Ready(cfg, Settled(cfg, c))
  {
    forall i: nat | i < |Cidrs(cfg)| ensures (cfg.region, i) in Settled(cfg, c).subnets {
      assert (cfg.region, i) in WantedSubnets(cfg);
    }
  }

  /** So a project waiting for deletion is not restored when its handle was finished before. */
  lemma {:induction false} FinishedHandleHidesDeletion(cfg: Config, h: Handle, c: Cloud)
    requires h.complete && h.projectId == Some(cfg.projectId) && c.project.Some? && c.project.value.deleting
    ensures Quiet(cfg, Some(h), c) == (Session(c, 1), Ok(h))
    ensures !Active(Quiet(cfg, Some(h), c).0.cloud) && Active(Quiet(cfg, None, c).0.cloud)
  {
    QuietMeaning(cfg, Some(h), c);
    QuietMeaning(cfg, None, c);
  }

  // ----- the handle of a call that gets through -----

  /** The number the sequence stamps: lost exactly when the project exists and reading it is denied. */
  function NumberSeen(cfg: Config, f: Schedule, s: Session): string {
    if s.cloud.project.None? then cfg.number
    else if f(s.sent + 1) == Denied then "" else s.cloud.project.value.number
  }

  lemma {:induction false} ProjectNumber(cfg: Config, f: Schedule, s: Session)
    ensures var r := ProjectStep(cfg, f, s).1; r.Ok? ==> r.value == NumberSeen(cfg, f, s)
  {
  }

  lemma {:induction false} ProjectStepsNumber(cfg: Config, f: Schedule, s: Session)
    ensures var r := ProjectSteps(cfg, f, s).1; r.Ok? ==> r.value == NumberSeen(cfg, f, s)
  {
    hide ProjectStep, LabelStep, Ensure, NumberSeen;
    ProjectNumber(cfg, f, s);
  }

  lemma {:induction false} AccountEmail(cfg: Config, f: Schedule, s: Session)
    ensures var r := AccountStep(cfg, f, s).1;
            r.Ok? ==> r.value == if AccountId(cfg) in s.cloud.accounts then ConventionalEmail(cfg) else NewEmail(cfg)
  {
  }

  /** Whatever fails on the way, a sequence that gets through stamps the undisturbed handle, the number apart. */
  lemma {:induction false} SequenceHandle(cfg: Config, f: Schedule, s: Session)
    ensures var r := Sequence(cfg, f, s).1;
            r.Ok? ==> r.value == FreshHandle(cfg, s.cloud).(number := NumberSeen(cfg, f, s))
  {
    hide ProjectSteps, NetworkSteps, Ensure, AccountStep, NumberSeen, ConventionalEmail, NewEmail, NetworkLink;
    ProjectStepsNumber(cfg, f, s);
    ProjectStepsInOrder(cfg, f, s);
    AccountEmail(cfg, f, ProjectSteps(cfg, f, s).0);
  }

  /** The call hands an old handle back. */
  predicate SkipsUnder(cfg: Config, existing: Option<Handle>, f: Schedule, c: Cloud) {
    Skips(cfg, existing, c) && f(0) in {NoFault, WaitLost, OperationFailed}
  }

  /** The request that reads an existing project. */
  function ReadIndex(existing: Option<Handle>): nat {
    if Skippable(existing) then 2 else 1
  }

  /**
   The handle of any call that gets through: the old one, or the undisturbed one, whose number is empty
   exactly when the project exists and the request that reads it is denied.
   */
  lemma {:induction false} HandleUnderFailures(cfg: Config, existing: Option<Handle>, f: Schedule, c: Cloud)
    ensures var r := Provision(cfg, existing, f, c).1;
            r.Ok? ==>
              if SkipsUnder(cfg, existing, f, c) then r == Ok(existing.value)
              else if c.project.Some? && f(ReadIndex(existing)) == Denied then
                r == Ok(FreshHandle(cfg, c).(number := ""))
              else r == Ok(FreshHandle(cfg, c))
  {
    hide Sequence, ConventionalEmail, NewEmail, NetworkLink;
    SequenceHandle(cfg, f, Session(c, 0));
    SequenceHandle(cfg, f, Session(c, 1));
  }

  /** For a numbered project: a call that stamps a handle keeps the number if and only if it could read the project. */
  lemma {:induction false} NumberKeptIffRead(cfg: Config, existing: Option<Handle>, f: Schedule, c: Cloud)
    requires c.project.Some? && c.project.value.number != ""
    ensures var r := Provision(cfg, existing, f, c).1;
            r.Ok? && !SkipsUnder(cfg, existing, f, c) ==>
              (r.value.number == c.project.value.number <==> f(ReadIndex(existing)) != Denied)
  {
    hide Provision;
    HandleUnderFailures(cfg, existing, f, c);
  }

  /**
   The last call may itself meet failures: if it gets through, only the labels can be missing. Its handle is
   that of one undisturbed call, except for a number lost to a denied read of a project that has one, and
   for the e-mail address of an account made by a call whose handle was never seen.
   */
  lemma {:induction false} ResumableThroughFailures(cfg: Config, existing: Option<Handle>, c: Cloud,
                                                    calls: seq<Schedule>, last: Schedule)
    requires !Skippable(existing)
    ensures var d := AfterCalls(cfg, existing, c, calls);
            var ((s, r), once) := (Provision(cfg, existing, last, d), Quiet(cfg, existing, c));
            r.Ok? ==>
              && Ready(cfg, s.cloud) && Unlabelled(s.cloud) == Unlabelled(once.0.cloud)
              && once.1.Ok? && r.value.(number := "", email := "") == once.1.value.(number := "", email := "")
              && (r.value.number == once.1.value.number <==>
                    !(d.project.Some? && last(1) == Denied) || once.1.value.number == "")
              && (r.value.email == once.1.value.email <==>
                    || NewEmail(cfg) == ConventionalEmail(cfg)
                    || (AccountId(cfg) in d.accounts <==> AccountId(cfg) in c.accounts))
  {
    hide Settled, Provision, Ready, ConventionalEmail, NewEmail, NetworkLink;
    var d := AfterCalls(cfg, existing, c, calls);
    CallsKeepDestination(cfg, existing, c, calls);
    ProvisionMeaning(cfg, existing, last, d);
    QuietMeaning(cfg, existing, c);
    SameNumber(cfg, c, d);
    HandleUnderFailures(cfg, existing, last, d);
  }

  // ----- the handle and the cloud, spelt out -----

  /** Where the driver looks for the network it has made. */
  function LinkText(cfg: Config): string {
    if cfg.network.None? then ""
    else "https://www.googleapis.com/compute/v1/projects/" + cfg.projectId + "/global/networks/nclav-vpc"
  }

  /** The identity the configuration names, or else the project's id. */
  function AccountText(cfg: Config): string {
    match cfg.identity
    case Some(name) => name
    case None => cfg.projectId
  }

  function AddressText(cfg: Config): string {
    AccountText(cfg) + "@" + cfg.projectId + ".iam.gserviceaccount.com"
  }

  /** A handle stamped by any call that gets through names the enclave's own project, region, account and network. */
  lemma {:induction false} StampedHandle(cfg: Config, existing: Option<Handle>, f: Schedule, c: Cloud)
    ensures var r := Provision(cfg, existing, f, c).1;
            r.Ok? && !SkipsUnder(cfg, existing, f, c) ==>
              && r.value.complete && r.value.projectId == Some(cfg.projectId) && r.value.region == cfg.region
              && r.value.link == LinkText(cfg)
              && r.value.zoneName == (if cfg.zone.Some? then "nclav-zone" else "")
              && (r.value.email == AddressText(cfg)
                  || (AccountText(cfg) !in c.accounts && cfg.reported == Some(r.value.email)))
              && (c.project.None? ==> r.value.number == cfg.number)
  {
    hide Provision;
    HandleUnderFailures(cfg, existing, f, c);
  }

  /** Calling again with what a call has handed back takes one request, hands the same back and changes nothing. */
  lemma {:induction false} SecondCallIsFree(cfg: Config, existing: Option<Handle>, f: Schedule, c: Cloud)
    ensures var (s, r) := Provision(cfg, existing, f, c);
            r.Ok? ==> Quiet(cfg, Some(r.value), s.cloud) == (Session(s.cloud, 1), Ok(r.value))
  {
    hide Sequence, Settled, ConventionalEmail, NewEmail, NetworkLink;
    SequenceMeaning(cfg, f, Session(c, 0));
    SequenceMeaning(cfg, f, Session(c, 1));
    HandleUnderFailures(cfg, existing, f, c);
  }

  /** What an undisturbed call that does not skip leaves: whatever was there, and beside it what was asked for. */
  lemma {:induction false} QuietLeaves(cfg: Config, existing: Option<Handle>, c: Cloud)
    requires !Skips(cfg, existing, c)
    ensures var d := Quiet(cfg, existing, c).0.cloud;
            && d.project == Some(Project(if c.project.Some? then c.project.value.number else cfg.number, false))
            && d.labels == Some(cfg.enclave) && d.billing == Some(cfg.billingAccount)
            && (forall api :: api in d.apis <==> api in c.apis || api in cfg.services)
            && d.network == (c.network || cfg.network.Some?) && d.others == c.others
            && d.zone == (if c.zone.Some? || cfg.zone.None? then c.zone
                          else Some(Zone(cfg.zone.value + ".", LinkText(cfg))))
  {
    hide Provision;
    QuietMeaning(cfg, existing, c);
  }

  /** The same for accounts and subnets: old entries stay, new ones are those of the configuration. */
  lemma {:induction false} QuietEntries(cfg: Config, existing: Option<Handle>, c: Cloud)
    requires !Skips(cfg, existing, c)
    ensures var d := Quiet(cfg, existing, c).0.cloud;
            && (forall a :: a in d.accounts <==> a in c.accounts || a == AccountText(cfg))
            && (forall a :: a in c.accounts ==> d.accounts[a] == c.accounts[a])
            && (AccountText(cfg) !in c.accounts ==>
                  d.accounts[AccountText(cfg)] == if cfg.reported.Some? then cfg.reported.value else AddressText(cfg))
            && (forall k :: k in c.subnets ==> k in d.subnets && d.subnets[k] == c.subnets[k])
            && (forall k :: k in d.subnets && k !in c.subnets ==>
                  && cfg.network.Some? && k.0 == cfg.region && k.1 < |cfg.network.value|
                  && d.subnets[k] == Subnet(cfg.network.value[k.1], LinkText(cfg)))
            && (cfg.network.Some? ==>
                  forall i: nat :: i < |cfg.network.value| ==> (cfg.region, i) in d.subnets)
  {
    hide Provision;
    QuietMeaning(cfg, existing, c);
    if cfg.network.Some? {
      forall i: nat | i < |cfg.network.value| ensures (cfg.region, i) in Settled(cfg, c).subnets {
        assert (cfg.region, i) in WantedSubnets(cfg);
      }
    }
  }

  // ----- labels are best effort -----

  /** The request that sets the labels: behind the look at an old handle, and one to three project requests. */
  function LabelIndex(existing: Option<Handle>, c: Cloud): nat {
    (if Skippable(existing) then 1 else 0)
    + (if c.project.None? then 1 else if c.project.value.deleting then 3 else 2)
  }

  ghost predicate QuietBut(f: Schedule, k: nat) {
    forall t: nat :: t != k ==> f(t) == NoFault
  }

  lemma {:induction false} QuietProjectStep(cfg: Config, f: Schedule, s: Session, k: nat)
    requires QuietBut(f, k)
    requires k == s.sent + (if s.cloud.project.None? then 1 else if s.cloud.project.value.deleting then 3 else 2)
    ensures ProjectStep(cfg, f, s) == ProjectStep(cfg, QUIET, s)
    ensures var (s1, r) := ProjectStep(cfg, f, s); s1.sent == k && r.Ok? && Active(s1.cloud)
  {
  }

  /** From the label request on, nothing else fails, and nothing else looks at the labels. */
  lemma {:induction false} LabelledAnyway(cfg: Config, f: Schedule, s: Session, k: nat)
    requires QuietBut(f, k) && s.sent == k && Active(s.cloud)
    ensures var ((s1, r), (q, _)) := (LabelStep(cfg, f, s), LabelStep(cfg, QUIET, s));
            && (r.Ok? <==> f(k) !in {NotSent, ReplyLost})
            && s1.sent == k + 1 == q.sent && Unlabelled(s1.cloud) == Unlabelled(q.cloud) && Active(s1.cloud)
  {
  }

  /** Two moments that differ in their labels only. */
  ghost predicate SameButLabels(s: Session, q: Session) {
    s.sent == q.sent && Unlabelled(s.cloud) == Unlabelled(q.cloud)
  }

  lemma {:induction false} EnsureIgnoresLabels(cfg: Config, f: Schedule, s: Session, q: Session, k: nat, req: Request,
                                               done: string, there: string)
    requires QuietBut(f, k) && s.sent > k && SameButLabels(s, q) && !req.PatchLabels?
    ensures var ((s1, r), (q1, r1)) := (Ensure(cfg, f, s, req, done, there), Ensure(cfg, QUIET, q, req, done, there));
            SameButLabels(s1, q1) && s1.sent > k && r == r1
  {
  }

  lemma {:induction false} SubnetsIgnoreLabels(cfg: Config, f: Schedule, s: Session, q: Session, k: nat, i: nat)
    requires QuietBut(f, k) && s.sent > k && SameButLabels(s, q) && i <= |Cidrs(cfg)|
    ensures var ((s1, r), (q1, r1)) := (SubnetSteps(cfg, f, s, i), SubnetSteps(cfg, QUIET, q, i));
            SameButLabels(s1, q1) && s1.sent > k && r == r1
    decreases |Cidrs(cfg)| - i
  {
    hide Ensure;
    if i < |Cidrs(cfg)| {
      EnsureIgnoresLabels(cfg, f, s, q, k, CreateSubnet(i), "", "");
      var (s1, r) := Ensure(cfg, f, s, CreateSubnet(i), "", "");
      if r.Ok? {
        SubnetsIgnoreLabels(cfg, f, s1, Ensure(cfg, QUIET, q, CreateSubnet(i), "", "").0, k, i + 1);
      }
    }
  }

  lemma {:induction false} NetworkIgnoresLabels(cfg: Config, f: Schedule, s: Session, q: Session, k: nat)
    requires QuietBut(f, k) && s.sent > k && SameButLabels(s, q)
    ensures var ((s1, r), (q1, r1)) := (NetworkSteps(cfg, f, s), NetworkSteps(cfg, QUIET, q));
            SameButLabels(s1, q1) && r == r1
  {
    hide Ensure, SubnetSteps;
    EnsureIgnoresLabels(cfg, f, s, q, k, CreateNetwork, "", "");
    var s1, q1 := NetworkStep(cfg, f, s).0, NetworkStep(cfg, QUIET, q).0;
    SubnetsIgnoreLabels(cfg, f, s1, q1, k, 0);
    var s2, q2 := SubnetSteps(cfg, f, s1, 0).0, SubnetSteps(cfg, QUIET, q1, 0).0;
    EnsureIgnoresLabels(cfg, f, s2, q2, k, CreateZone, "", "");
  }

  lemma {:induction false} SequenceIgnoresLabels(cfg: Config, f: Schedule, s: Session, k: nat)
    requires QuietBut(f, k)
    requires k == s.sent + (if s.cloud.project.None? then 1 else if s.cloud.project.value.deleting then 3 else 2)
    ensures var ((s1, r), (q1, r1)) := (Sequence(cfg, f, s), Sequence(cfg, QUIET, s));
            && (r.Ok? <==> f(k) !in {NotSent, ReplyLost})
            && (r.Ok? ==> r == r1 && Unlabelled(s1.cloud) == Unlabelled(q1.cloud))
  {
    hide Ensure, ProjectStep, NetworkSteps, LabelStep;
    QuietProjectStep(cfg, f, s, k);
    QuietSequence(cfg, s);
    var (a, number) := ProjectStep(cfg, f, s);
    LabelledAnyway(cfg, f, a, k);
    var a1, b1 := LabelStep(cfg, f, a).0, LabelStep(cfg, QUIET, a).0;
    if f(k) !in {NotSent, ReplyLost} {
      EnsureIgnoresLabels(cfg, f, a1, b1, k, LinkBilling, "", "");
      var a2, b2 := Ensure(cfg, f, a1, LinkBilling, "", "").0, Ensure(cfg, QUIET, b1, LinkBilling, "", "").0;
      EnsureIgnoresLabels(cfg, f, a2, b2, k, EnableApis, "", "");
      var a3, b3 := Ensure(cfg, f, a2, EnableApis, "", "").0, Ensure(cfg, QUIET, b2, EnableApis, "", "").0;
      EnsureIgnoresLabels(cfg, f, a3, b3, k, CreateAccount, NewEmail(cfg), ConventionalEmail(cfg));
      NetworkIgnoresLabels(cfg, f, AccountStep(cfg, f, a3).0, AccountStep(cfg, QUIET, b3).0, k);
    }
  }

  /**
   If only the label request fails, the call gets through if and only if the request was answered at all,
   and then differs from an undisturbed call in nothing but the labels.
   */
  lemma {:induction false} LabelsAreBestEffort(cfg: Config, existing: Option<Handle>, f: Schedule, c: Cloud)
    requires !Skips(cfg, existing, c) && QuietBut(f, LabelIndex(existing, c))
    ensures var ((s, r), once) := (Provision(cfg, existing, f, c), Quiet(cfg, existing, c));
            && (r.Ok? <==> f(LabelIndex(existing, c)) !in {NotSent, ReplyLost})
            && (r.Ok? ==> r == once.1 && Unlabelled(s.cloud) == Unlabelled(once.0.cloud))
  {
    hide Sequence;
    SequenceIgnoresLabels(cfg, f, Session(c, if Skippable(existing) then 1 else 0), LabelIndex(existing, c));
  }
}
