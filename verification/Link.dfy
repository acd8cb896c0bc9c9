/** The connection state machine: native/src/ble_link.cpp. */
module Link {
  import opened Bytes
  import opened Millis

  datatype Stage = Absent | Advertising | Connected | ServicesResolved | Encrypted | Ready

  datatype Action = NoAction | Scan | DisconnectClassic | Connect | WaitForServices | Pair | Subscribe

  datatype Stall =
    | NotStalled
    | NoAdvertisement
    | ClassicBlocking
    | ConnectFailed
    | ServicesNeverAppeared
    | WrongDevice
    | NotEncrypted
    | SubscribeFailed

  datatype Observation = Observation(
    leCandidate: bool, classicUp: bool, connected: bool, bondedFlag: bool,
    attributes: nat, controlFound: bool, notifySucceeded: bool,
    subscribed: nat, required: nat)

  /** The advice without its human-facing text. */
  datatype Advice = Advice(stage: Stage, action: Action, stall: Stall, retryAt: nat)

  datatype Config = Config(
    connectTimeout: nat, servicesTimeout: nat, encryptTimeout: nat, subscribeTimeout: nat,
    backoffInitial: nat, backoffMax: nat)

  datatype Machine = Machine(stage: Stage, since: Time, lastFailure: Time, attempts: nat, seenBonded: bool)

  const INITIAL := Machine(Absent, 0, 0, 0, false)

  datatype Updated = Updated(m: Machine, advice: Advice)

  function Pow2(n: nat): (p: nat)
    ensures p >= 1
  {
    if n == 0 then 1 else 2 * Pow2(n - 1)
  }

  function Classify(obs: Observation): Stage {
    if !obs.connected then if obs.leCandidate then Advertising else Absent
    else if obs.attributes == 0 || !obs.controlFound then Connected
    else if !obs.notifySucceeded then ServicesResolved
    else if obs.subscribed < obs.required then Encrypted
    else Ready
  }

  /** The delay after `attempts` failures. */
  function Backoff(cfg: Config, attempts: nat): nat {
    if attempts == 0 then 0 else Min(cfg.backoffInitial * Pow2(attempts - 1), cfg.backoffMax)
  }

  function Enter(m: Machine, obs: Observation, now: Time): Machine {
    var stage := Classify(obs);
    var m1 := if stage != m.stage then Machine(stage, now, 0, 0, m.seenBonded) else m;
    m1.(seenBonded := m1.seenBonded || (obs.bondedFlag && !obs.notifySucceeded && stage == ServicesResolved))
  }

  function ActionOf(stage: Stage, obs: Observation): Action {
    match stage
    case Absent => if obs.classicUp then DisconnectClassic else Scan
    case Advertising => Connect
    case Connected => WaitForServices
    case ServicesResolved => Pair
    case Encrypted => Subscribe
    case Ready => NoAction
  }

  function StallOf(cfg: Config, m: Machine, obs: Observation, now: Time): Stall {
    var t := Elapsed(now, m.since);
    match m.stage
    case Absent =>
      if obs.classicUp then ClassicBlocking
      else if t >= cfg.connectTimeout then NoAdvertisement else NotStalled
    case Advertising => if m.attempts > 0 && t >= cfg.connectTimeout then ConnectFailed else NotStalled
    case Connected =>
      if t < cfg.servicesTimeout then NotStalled
      else if obs.attributes > 0 && !obs.controlFound then WrongDevice else ServicesNeverAppeared
    case ServicesResolved => if t >= cfg.encryptTimeout then NotEncrypted else NotStalled
    case Encrypted => if t >= cfg.subscribeTimeout then SubscribeFailed else NotStalled
    case Ready => NotStalled
  }

  function RetryAt(cfg: Config, m: Machine): nat {
    if m.attempts == 0 || m.stage == Ready then 0 else m.lastFailure + Backoff(cfg, m.attempts)
  }

  function Update(cfg: Config, m: Machine, obs: Observation, now: Time): Updated {
    var m1 := Enter(m, obs, now);
    Updated(m1, Advice(m1.stage, ActionOf(m1.stage, obs), StallOf(cfg, m1, obs, now), RetryAt(cfg, m1)))
  }

  function Fail(m: Machine, now: Time): Machine {
    m.(attempts := m.attempts + 1, lastFailure := now)
  }

  // --- The object ---------------------------------------------------------

  class LinkMachine {
    const cfg: Config
    var stage: Stage
    var since: Time
    var lastFailure: Time
    var attempts: nat
    var seenBonded: bool

    function Value(): Machine
      reads this
    {
      Machine(stage, since, lastFailure, attempts, seenBonded)
    }

    constructor (cfg: Config)
      ensures this.cfg == cfg && Value() == INITIAL
    {
      this.cfg := cfg;
      stage, since, lastFailure, attempts, seenBonded := Absent, 0, 0, 0, false;
    }

    method Reset()
      modifies this
      ensures Value() == INITIAL
    {
      stage := Absent;
      since := 0;
      lastFailure := 0;
      attempts := 0;
      seenBonded := false;
    }

    method NoteAttemptFailed(now: Time)
      modifies this
      ensures Value() == Fail(old(Value()), now)
    {
      attempts := attempts + 1;
      lastFailure := now;
    }

    /** The doubling loop, which stops at the cap. */
    method BackoffMs() returns (ms: nat)
      ensures ms == Backoff(cfg, attempts)
    {
      if attempts == 0 {
        return 0;
      }
      ms := cfg.backoffInitial;
      var i := 1;
      while i < attempts && ms < cfg.backoffMax
        invariant 1 <= i <= attempts
        invariant ms == cfg.backoffInitial * Pow2(i - 1)
      {
        DoubleOnce(cfg.backoffInitial, i);
        ms := ms * 2;
        i := i + 1;
      }
      if i < attempts {
        DoublingGrows(cfg.backoffInitial, i - 1, attempts - 1);
      }
      ms := Min(ms, cfg.backoffMax);
    }

    method DoUpdate(obs: Observation, now: Time) returns (advice: Advice)
      modifies this
      ensures var u := Update(cfg, old(Value()), obs, now);
              Value() == u.m && advice == u.advice
    {
      var next := Classify(obs);
      if next != stage {
        stage := next;
        since := now;
        attempts := 0;
        lastFailure := 0;
      }
      if obs.bondedFlag && !obs.notifySucceeded && stage == ServicesResolved {
        seenBonded := true;
      }
      var inStage := Elapsed(now, since);
      var wait := BackoffMs();
      var retryAt := if attempts > 0 then lastFailure + wait else 0;
      var action, stall := NoAction, NotStalled;
      match stage
      case Absent =>
        if obs.classicUp {
          action, stall := DisconnectClassic, ClassicBlocking;
        } else {
          action := Scan;
          if inStage >= cfg.connectTimeout {
            stall := NoAdvertisement;
          }
        }
        advice := Advice(stage, action, stall, retryAt);
      case Advertising =>
        if attempts > 0 && inStage >= cfg.connectTimeout {
          stall := ConnectFailed;
        }
        advice := Advice(stage, Connect, stall, retryAt);
      case Connected =>
        if inStage >= cfg.servicesTimeout {
          stall := if obs.attributes > 0 && !obs.controlFound then WrongDevice else ServicesNeverAppeared;
        }
        advice := Advice(stage, WaitForServices, stall, retryAt);
      case ServicesResolved =>
        if inStage >= cfg.encryptTimeout {
          stall := NotEncrypted;
        }
        advice := Advice(stage, Pair, stall, retryAt);
      case Encrypted =>
        if inStage >= cfg.subscribeTimeout {
          stall := SubscribeFailed;
        }
        advice := Advice(stage, Subscribe, stall, retryAt);
      case Ready =>
        advice := Advice(stage, NoAction, NotStalled, 0);
    }
  }

  lemma DoubleOnce(initial: nat, i: nat)
    requires i >= 1
    ensures initial * Pow2(i - 1) * 2 == initial * Pow2(i)
  {
    assert Pow2(i) == 2 * Pow2(i - 1);
    assert initial * (2 * Pow2(i - 1)) == initial * Pow2(i - 1) * 2;
  }

  lemma {:induction false} DoublingGrows(initial: nat, i: nat, n: nat)
    requires i <= n
    ensures initial * Pow2(i) <= initial * Pow2(n)
    decreases n - i
  {
    if i < n {
      DoubleOnce(initial, i + 1);
      DoublingGrows(initial, i + 1, n);
    }
  }

  // --- Runs ---------------------------------------------------------------

  datatype Event = Observed(obs: Observation, now: Time) | Failed(now: Time) | Reset

  function Next(cfg: Config, m: Machine, e: Event): Machine {
    match e
    case Observed(obs, now) => Update(cfg, m, obs, now).m
    case Failed(now) => Fail(m, now)
    case Reset => INITIAL
  }

  function After(cfg: Config, events: seq<Event>): Machine {
    if events == [] then INITIAL else Next(cfg, After(cfg, events[..|events| - 1]), events[|events| - 1])
  }

  /** The same run with every bonded flag overwritten. */
  function WithBonded(events: seq<Event>, flags: seq<bool>): seq<Event>
    requires |flags| == |events|
  {
    if events == [] then []
    else
      var n := |events| - 1;
      var last := events[n];
      WithBonded(events[..n], flags[..n])
      + [if last.Observed? then last.(obs := last.obs.(bondedFlag := flags[n])) else last]
  }

  /** Equal but for the diagnostic memory. */
  predicate SameLink(a: Machine, b: Machine) {
    a.(seenBonded := false) == b.(seenBonded := false)
  }

  lemma BondedIgnored(cfg: Config, a: Machine, b: Machine, obs: Observation, now: Time, flag: bool)
    requires SameLink(a, b)
    ensures var u, v := Update(cfg, a, obs, now), Update(cfg, b, obs.(bondedFlag := flag), now);
            SameLink(u.m, v.m) && u.advice == v.advice
  {
  }

  /** The bonded flag never gates: overwrite it anywhere in a run, and stage,
      action, stall and retry time of the next observation are the same. */
  lemma {:induction false} BondedNeverGates(cfg: Config, events: seq<Event>, flags: seq<bool>)
    requires |flags| == |events|
    ensures SameLink(After(cfg, events), After(cfg, WithBonded(events, flags)))
    ensures forall obs, now, flag ::
              Update(cfg, After(cfg, events), obs, now).advice
              == Update(cfg, After(cfg, WithBonded(events, flags)), obs.(bondedFlag := flag), now).advice
  {
    if events != [] {
      var n := |events| - 1;
      BondedNeverGates(cfg, events[..n], flags[..n]);
      var over := WithBonded(events, flags);
      assert over[..|over| - 1] == WithBonded(events[..n], flags[..n]);
      if events[n].Observed? {
        BondedIgnored(cfg, After(cfg, events[..n]), After(cfg, over[..|over| - 1]),
                      events[n].obs, events[n].now, flags[n]);
      }
    }
    forall obs, now, flag
      ensures Update(cfg, After(cfg, events), obs, now).advice
           == Update(cfg, After(cfg, WithBonded(events, flags)), obs.(bondedFlag := flag), now).advice
    {
      BondedIgnored(cfg, After(cfg, events), After(cfg, WithBonded(events, flags)), obs, now, flag);
    }
  }

  /** The stage that a run is in, read off its last observation. */
  function LastStage(events: seq<Event>): Stage {
    if events == [] then Absent
    else
      match events[|events| - 1]
      case Observed(obs, _) => Classify(obs)
      case Failed(_) => LastStage(events[..|events| - 1])
      case Reset => Absent
  }

  /** The times of the failures noted since the stage last changed, or since the
      last reset. */
  function FailuresInStage(events: seq<Event>): seq<Time> {
    if events == [] then []
    else
      var front := events[..|events| - 1];
      match events[|events| - 1]
      case Observed(obs, _) => if Classify(obs) == LastStage(front) then FailuresInStage(front) else []
      case Failed(now) => FailuresInStage(front) + [now]
      case Reset => []
  }

  /** When the run entered the stage it is in. */
  function EnteredAt(events: seq<Event>): Time {
    if events == [] then 0
    else
      var front := events[..|events| - 1];
      match events[|events| - 1]
      case Observed(obs, now) => if Classify(obs) == LastStage(front) then EnteredAt(front) else now
      case Failed(_) => EnteredAt(front)
      case Reset => 0
  }

  /** How long a stage may last. */
  function Patience(cfg: Config, stage: Stage): nat {
    match stage
    case Connected => cfg.servicesTimeout
    case ServicesResolved => cfg.encryptTimeout
    case Encrypted => cfg.subscribeTimeout
    case _ => cfg.connectTimeout
  }

  /** Over every run: a Classic link that is up is reported at once, and any
      other stall exactly when the link has sat in its stage for as long as that
      stage may last (when connecting, only after a failed attempt). */
  lemma StalledIff(cfg: Config, events: seq<Event>, obs: Observation, now: Time)
    ensures var all, stage := events + [Observed(obs, now)], Classify(obs);
            var stall := Update(cfg, After(cfg, events), obs, now).advice.stall;
            && (stall == ClassicBlocking <==> stage == Absent && obs.classicUp)
            && (stall != NotStalled && stall != ClassicBlocking
                <==> && stage != Ready && !(stage == Absent && obs.classicUp)
                     && (stage == Advertising ==> FailuresInStage(all) != [])
                     && Elapsed(now, EnteredAt(all)) >= Patience(cfg, stage))
  {
    var all := events + [Observed(obs, now)];
    assert all[..|all| - 1] == events;
    CountsFailures(cfg, all);
  }

  /** Services and control characteristics are there. */
  predicate Discovered(obs: Observation) {
    obs.connected && obs.attributes > 0 && obs.controlFound
  }

  /** Where the link stands, for every machine (so after every run) and every
      observation. */
  lemma AdvisedStage(cfg: Config, m: Machine, obs: Observation, now: Time)
    ensures var stage := Update(cfg, m, obs, now).advice.stage;
            && (stage == Absent <==> !obs.connected && !obs.leCandidate)
            && (stage == Advertising <==> !obs.connected && obs.leCandidate)
            && (stage == Connected <==> obs.connected && !Discovered(obs))
            && (stage == ServicesResolved <==> Discovered(obs) && !obs.notifySucceeded)
            && (stage == Encrypted <==> Discovered(obs) && obs.notifySucceeded && obs.subscribed < obs.required)
            && (stage == Ready <==> Discovered(obs) && obs.notifySucceeded && obs.subscribed >= obs.required)
  {
  }

  /** What to do next, likewise. */
  lemma AdvisedAction(cfg: Config, m: Machine, obs: Observation, now: Time)
    ensures var action := Update(cfg, m, obs, now).advice.action;
            && (action == Scan <==> !obs.connected && !obs.leCandidate && !obs.classicUp)
            && (action == DisconnectClassic <==> !obs.connected && !obs.leCandidate && obs.classicUp)
            && (action == Connect <==> !obs.connected && obs.leCandidate)
            && (action == WaitForServices <==> obs.connected && !Discovered(obs))
            && (action == Pair <==> Discovered(obs) && !obs.notifySucceeded)
            && (action == Subscribe <==> Discovered(obs) && obs.notifySucceeded && obs.subscribed < obs.required)
            && (action == NoAction <==> Discovered(obs) && obs.notifySucceeded && obs.subscribed >= obs.required)
  {
  }

  /** What it is stuck on, over every run: each kind of stall by what is seen and
      by how long the link has been in its stage. */
  lemma AdvisedStall(cfg: Config, events: seq<Event>, obs: Observation, now: Time)
    ensures var all := events + [Observed(obs, now)];
            var stall := Update(cfg, After(cfg, events), obs, now).advice.stall;
            var t := (now as int - EnteredAt(all)) % TWO_TO_64;
            && (stall == ClassicBlocking <==> !obs.connected && !obs.leCandidate && obs.classicUp)
            && (stall == NoAdvertisement <==>
                  !obs.connected && !obs.leCandidate && !obs.classicUp && t >= cfg.connectTimeout)
            && (stall == ConnectFailed <==>
                  !obs.connected && obs.leCandidate && FailuresInStage(all) != [] && t >= cfg.connectTimeout)
            && (stall == WrongDevice <==>
                  obs.connected && obs.attributes > 0 && !obs.controlFound && t >= cfg.servicesTimeout)
            && (stall == ServicesNeverAppeared <==>
                  obs.connected && obs.attributes == 0 && t >= cfg.servicesTimeout)
            && (stall == NotEncrypted <==> Discovered(obs) && !obs.notifySucceeded && t >= cfg.encryptTimeout)
            && (stall == SubscribeFailed <==>
                  && Discovered(obs) && obs.notifySucceeded && obs.subscribed < obs.required
                  && t >= cfg.subscribeTimeout)
  {
    var all := events + [Observed(obs, now)];
    assert all[..|all| - 1] == events;
    CountsFailures(cfg, all);
    ElapsedIsModular(now, EnteredAt(all));
  }

  /** The evidence each stage rests on: every stage needs all that the stages
      before it need, and encryption is proved by a working notification alone. */
  lemma StageEvidence(obs: Observation)
    ensures var stage := Classify(obs);
            var found := obs.connected && obs.attributes > 0 && obs.controlFound;
            && (stage in {Absent, Advertising} <==> !obs.connected)
            && (stage == Advertising <==> !obs.connected && obs.leCandidate)
            && (stage in {ServicesResolved, Encrypted, Ready} <==> found)
            && (stage in {Encrypted, Ready} <==> found && obs.notifySucceeded)
            && (stage == Ready <==> found && obs.notifySucceeded && obs.subscribed >= obs.required)
  {
  }

  /** Over every run the retry time is the last failure of the stage plus
      min(initial * 2^(n-1), max) after n failures in that stage; without one, or
      when the link is ready, it is now. */
  lemma RetryTime(cfg: Config, events: seq<Event>, obs: Observation, now: Time)
    ensures var failures := FailuresInStage(events + [Observed(obs, now)]);
            var n := |failures|;
            Update(cfg, After(cfg, events), obs, now).advice.retryAt ==
              if n == 0 || Classify(obs) == Ready then 0
              else failures[n - 1] + Min(cfg.backoffInitial * Pow2(n - 1), cfg.backoffMax)
  {
    var all := events + [Observed(obs, now)];
    assert all[..|all| - 1] == events;
    CountsFailures(cfg, all);
  }

  lemma {:induction false} CountsFailures(cfg: Config, events: seq<Event>)
    ensures var m, failures := After(cfg, events), FailuresInStage(events);
            && m.stage == LastStage(events) && m.since == EnteredAt(events) && m.attempts == |failures|
            && (failures != [] ==> m.lastFailure == failures[|failures| - 1])
  {
    if events != [] {
      CountsFailures(cfg, events[..|events| - 1]);
    }
  }
}
