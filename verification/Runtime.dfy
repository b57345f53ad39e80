/**
  The agent's runtime status and its state machine, restarts included, and the trading
  gate that reads the status before every new entry. Durations are in nanoseconds.
*/
module Runtime {
  import opened Entities

  datatype RunMode =
    | Idle | Scanning | PaperTrading | Backtesting | Optimizing | LiveTrading | Halted
    | Unknown(name: string)

  /** `Unset` is the empty string that an old snapshot may hold. */
  datatype Connectivity = Unset | Connected | Reconnecting | NetworkWaiting | OtherLink(name: string)

  datatype License = Unset | Demo | Licensed | Grace | RiskOnly | Unlicensed | OtherLicense(name: string)

  datatype Integrity = Unset | Trusted | Degraded | OtherIntegrity(name: string)

  const MS := 1_000_000

  /** `updatedAt` is None for the zero time. */
  datatype Status = Status(
    mode: RunMode,
    connectivity: Connectivity,
    license: License,
    integrity: Integrity,
    ntpDrift: int,
    newEntriesBlocked: bool,
    haltReason: string,
    haltedAt: Option<int>,
    banner: string,
    analyticsDegraded: bool,
    updatedAt: Option<int>)

  datatype Machine = Machine(current: RunMode, previous: RunMode)

  datatype System = System(machine: Machine, status: Status)

  /* ---------- The trading gate ---------- */

  datatype Decision =
    | Allowed
    | ModeNotAllowed | ExplicitlyBlocked | NotConnected | NotTrusted | DriftTooLarge | LicenseInvalid

  predicate Trading(mode: RunMode) { mode == LiveTrading || mode == PaperTrading }

  /** The gate under the default policy. */
  function CheckNewEntry(s: Status): Decision {
    if !Trading(s.mode) then ModeNotAllowed
    else if s.newEntriesBlocked then ExplicitlyBlocked
    else if s.connectivity != Connected then NotConnected
    else if s.integrity != Trusted then NotTrusted
    else if s.ntpDrift > 500 * MS then DriftTooLarge
    else if s.mode == LiveTrading && s.license != Licensed && s.license != Grace then LicenseInvalid
    else Allowed
  }

  /* ---------- Critical sections ---------- */

  predicate Permitted(from: RunMode, to: RunMode) { from == to || from != Halted || to == Idle }

  /** The state machine's half of a transition. */
  function Move(m: Machine, to: RunMode): Machine
    requires Permitted(m.current, to)
  {
    if m.current == to then m else Machine(to, m.current)
  }

  function HaltedBanner(reason: string): string { if reason == "" then "halted" else "halted: " + reason }

  /** The manager's half of a transition. */
  function Record(s: Status, to: RunMode, reason: string, now: int): Status {
    var t := s.(mode := to, updatedAt := Some(now));
    if to == Halted then
      t.(haltReason := reason, haltedAt := Some(now), newEntriesBlocked := true, banner := HaltedBanner(reason))
    else if to == Idle && s.haltReason != "" then
      t.(haltReason := "", haltedAt := None, newEntriesBlocked := false, banner := "")
    else t
  }

  function Drifted(s: Status, drift: int, now: int): Status {
    s.(ntpDrift := drift,
       newEntriesBlocked := if drift > 500 * MS then true else if drift < 200 * MS then false else s.newEntriesBlocked,
       updatedAt := Some(now))
  }

  function ModeName(mode: RunMode): string {
    match mode
    case Idle => "idle" case Scanning => "scanning" case PaperTrading => "paper_trading"
    case Backtesting => "backtesting" case Optimizing => "optimizing" case LiveTrading => "live_trading"
    case Halted => "halted" case Unknown(name) => name
  }

  /** A snapshot of a halted or a busy agent restarts halted; any other restarts idle. */
  function Rescued(s: Status, now: int): Status {
    match s.mode
    case Halted =>
      var reason := if s.haltReason == "" then "restored halted runtime snapshot" else s.haltReason;
      s.(haltReason := reason,
         haltedAt := if s.haltedAt.None? then Some(s.updatedAt.GetOr(now)) else s.haltedAt,
         newEntriesBlocked := true,
         banner := HaltedBanner(reason))
    case LiveTrading | PaperTrading | Scanning | Backtesting | Optimizing =>
      var reason := "unclean restart from " + ModeName(s.mode);
      s.(mode := Halted, haltReason := reason, haltedAt := Some(now), newEntriesBlocked := true,
         banner := HaltedBanner(reason), updatedAt := Some(now))
    case _ =>
      s.(mode := Idle, haltReason := "", haltedAt := None, banner := "", updatedAt := Some(s.updatedAt.GetOr(now)))
  }

  function Defaulted(s: Status, now: int): Status {
    s.(connectivity := if s.connectivity.Unset? then Connected else s.connectivity,
       license := if s.license.Unset? then Demo else s.license,
       integrity := if s.integrity.Unset? then Trusted else s.integrity,
       updatedAt := Some(s.updatedAt.GetOr(now)))
  }

  function Restored(s: Status, now: int): Status { Defaulted(Rescued(s, now), now) }

  function Initial(now: int): System {
    System(Machine(Idle, Idle), Status(Idle, Connected, Demo, Trusted, 0, false, "", None, "", false, Some(now)))
  }

  /* ---------- Serialised steps ---------- */

  datatype Event =
    | Transition(to: RunMode, reason: string)
    | SetConnectivity(connectivity: Connectivity)
    | SetLicense(license: License)
    | SetIntegrity(integrity: Integrity)
    | UpdateNTPDrift(drift: int)
    | Degrade
    | Restore(snapshot: Status)

  function Step(s: System, e: Event, now: int): System {
    match e
    case Transition(to, reason) =>
      if Permitted(s.machine.current, to)
      then System(Move(s.machine, to), Record(s.status, to, reason, now)) else s
    case SetConnectivity(c) => s.(status := s.status.(connectivity := c, updatedAt := Some(now)))
    case SetLicense(l) =>
      s.(status := s.status.(license := l, updatedAt := Some(now),
                             banner := if l == RiskOnly then "license expired" else s.status.banner))
    case SetIntegrity(i) => s.(status := s.status.(integrity := i, updatedAt := Some(now)))
    case UpdateNTPDrift(drift) => s.(status := Drifted(s.status, drift, now))
    case Degrade => s.(status := s.status.(analyticsDegraded := true, updatedAt := Some(now)))
    case Restore(snapshot) =>
      System(Machine(Restored(snapshot, now).mode, s.machine.current), Restored(snapshot, now))
  }

  datatype Timed = Timed(event: Event, at: int)

  function Run(s: System, es: seq<Timed>): System
    decreases |es|
  {
    if es == [] then s else Run(Step(s, es[0].event, es[0].at), es[1..])
  }

  /* ---------- The mutable objects ---------- */

  class StateMachine {
    var current: RunMode
    var previous: RunMode

    ghost function Value(): Machine
      reads this
    {
      Machine(current, previous)
    }

    constructor ()
      ensures Value() == Machine(Idle, Idle)
    {
      current, previous := Idle, Idle;
    }

    method Transition(to: RunMode) returns (ok: bool)
      modifies this
      ensures ok == Permitted(old(current), to)
      ensures Value() == if ok then Move(old(Value()), to) else old(Value())
    {
      var from := current;
      if from == to { return true; }
      if from == Halted && to != Idle { return false; }
      previous := from;
      current := to;
      return true;
    }

    method Restore(mode: RunMode)
      modifies this
      ensures Value() == Machine(mode, old(current))
    {
      previous := current;
      current := mode;
    }
  }

  class Manager {
    const stateMachine: StateMachine
    var status: Status

    ghost function Value(): System
      reads this, stateMachine
    {
      System(stateMachine.Value(), status)
    }

    constructor (now: int)
      ensures Value() == Initial(now) && fresh(stateMachine)
    {
      stateMachine := new StateMachine();
      status := Status(Idle, Connected, Demo, Trusted, 0, false, "", None, "", false, Some(now));
    }

    method Transition(to: RunMode, reason: string, now: int) returns (ok: bool)
      modifies this, stateMachine
      ensures ok == Permitted(old(stateMachine.current), to)
      ensures Value() == Step(old(Value()), Event.Transition(to, reason), now)
    {
      ok := stateMachine.Transition(to);
      if !ok { return; }
      status := status.(mode := to);
      if to == Halted {
        status := status.(haltReason := reason, haltedAt := Some(now), newEntriesBlocked := true,
                          banner := HaltedBanner(reason));
      } else if to == Idle && status.haltReason != "" {
        status := status.(haltReason := "", haltedAt := None, newEntriesBlocked := false, banner := "");
      }
      status := status.(updatedAt := Some(now));
    }

    method SetConnectivity(c: Connectivity, now: int)
      modifies this
      ensures Value() == Step(old(Value()), Event.SetConnectivity(c), now)
    {
      status := status.(connectivity := c, updatedAt := Some(now));
    }

    method SetLicense(l: License, now: int)
      modifies this
      ensures Value() == Step(old(Value()), Event.SetLicense(l), now)
    {
      status := status.(license := l);
      if l == RiskOnly { status := status.(banner := "license expired"); }
      status := status.(updatedAt := Some(now));
    }

    method UpdateNTPDrift(drift: int, now: int)
      modifies this
      ensures Value() == Step(old(Value()), Event.UpdateNTPDrift(drift), now)
    {
      status := status.(ntpDrift := drift);
      if drift > 500 * MS {
        status := status.(newEntriesBlocked := true);
      } else if drift < 200 * MS {
        status := status.(newEntriesBlocked := false);
      }
      status := status.(updatedAt := Some(now));
    }

    method SetIntegrity(i: Integrity, now: int)
      modifies this
      ensures Value() == Step(old(Value()), Event.SetIntegrity(i), now)
    {
      status := status.(integrity := i, updatedAt := Some(now));
    }

    method EnableAnalyticsDegrade(now: int)
      modifies this
      ensures Value() == Step(old(Value()), Degrade, now)
    {
      status := status.(analyticsDegraded := true, updatedAt := Some(now));
    }

    method RestoreSafetySnapshot(snapshot: Status, now: int)
      modifies this, stateMachine
      ensures Value() == Step(old(Value()), Event.Restore(snapshot), now)
    {
      var restored := Rescue(snapshot, now);
      if restored.connectivity.Unset? { restored := restored.(connectivity := Connected); }
      if restored.license.Unset? { restored := restored.(license := Demo); }
      if restored.integrity.Unset? { restored := restored.(integrity := Trusted); }
      if restored.updatedAt.None? { restored := restored.(updatedAt := Some(now)); }
      status := restored;
      stateMachine.Restore(restored.mode);
    }

    /** The branches of the restart on the snapshot's mode. */
    static method Rescue(snapshot: Status, now: int) returns (restored: Status)
      ensures restored == Rescued(snapshot, now)
    {
      restored := snapshot;
      match snapshot.mode
      case Halted =>
        if restored.haltReason == "" {
          restored := restored.(haltReason := "restored halted runtime snapshot");
        }
        if restored.haltedAt.None? {
          restored := restored.(haltedAt := Some(snapshot.updatedAt.GetOr(now)));
        }
        restored := restored.(newEntriesBlocked := true, banner := HaltedBanner(restored.haltReason));
      case LiveTrading | PaperTrading | Scanning | Backtesting | Optimizing =>
        var reason := "unclean restart from " + ModeName(snapshot.mode);
        restored := restored.(mode := Halted, haltReason := reason, haltedAt := Some(now),
                              newEntriesBlocked := true, banner := HaltedBanner(reason), updatedAt := Some(now));
      case _ =>
        restored := restored.(mode := Idle, haltReason := "", haltedAt := None, banner := "");
        if restored.updatedAt.None? { restored := restored.(updatedAt := Some(now)); }
    }
  }

  /* ---------- Serialised runs ---------- */

  ghost predicate Agree(s: System) { s.status.mode == s.machine.current }

  /** As long as transitions do not overlap, the status shows the mode the machine is in. */
  lemma {:induction false} ModesAgree(s: System, es: seq<Timed>)
    requires Agree(s)
    ensures Agree(Run(s, es))
    decreases |es|
  {
    if es != [] { ModesAgree(Step(s, es[0].event, es[0].at), es[1..]); }
  }

  /** Whatever the snapshot, after a restart the agent is idle or halted, and no entry is allowed. */
  lemma RestartIsSafe(s: System, snapshot: Status, now: int)
    ensures var t := Step(s, Restore(snapshot), now);
            && Agree(t)
            && (t.machine.current == Idle || t.machine.current == Halted)
            && CheckNewEntry(t.status) == ModeNotAllowed
            && (t.machine.current == Idle <==> snapshot.mode.Idle? || snapshot.mode.Unknown?)
  {}

  /** Step `i` of the run explicitly starts live or paper trading, from a machine that is not halted. */
  ghost predicate Starts(s: System, es: seq<Timed>, i: nat) {
    && i < |es|
    && es[i].event.Transition? && Trading(es[i].event.to)
    && Run(s, es[..i]).machine.current != Halted
  }

  /** Step `k` of the run takes a halted machine to idle. */
  ghost predicate Revives(s: System, es: seq<Timed>, k: nat) {
    && k < |es|
    && Run(s, es[..k]).machine.current == Halted
    && Run(s, es[..k + 1]).machine.current == Idle
    && ((es[k].event.Transition? && es[k].event.to == Idle) || es[k].event.Restore?)
  }

  lemma RunShift(s: System, es: seq<Timed>, i: nat)
    requires 0 < |es| && i < |es|
    ensures Run(Step(s, es[0].event, es[0].at), es[1..][..i]) == Run(s, es[..i + 1])
  {
    assert es[..i + 1][1..] == es[1..][..i];
  }

  lemma StepToTrading(s: System, e: Event, now: int)
    requires Agree(s) && !Trading(s.status.mode)
    ensures Agree(Step(s, e, now))
    ensures Trading(Step(s, e, now).status.mode) ==> e.Transition? && Trading(e.to) && s.machine.current != Halted
  {
  }

  /** If the gate lets an entry pass, trading was started explicitly, by a machine that was not halted. */
  lemma {:induction false} EntryNeedsExplicitStart(s: System, es: seq<Timed>) returns (i: nat)
    requires Agree(s) && !Trading(s.status.mode)
    requires CheckNewEntry(Run(s, es).status) == Allowed
    ensures Starts(s, es, i)
    decreases |es|
  {
    var t := Step(s, es[0].event, es[0].at);
    StepToTrading(s, es[0].event, es[0].at);
    if Trading(t.status.mode) {
      i := 0;
      assert es[..0] == [];
    } else {
      var j := EntryNeedsExplicitStart(t, es[1..]);
      i := j + 1;
      RunShift(s, es, j);
      assert es[1..][j] == es[j + 1];
    }
  }

  /** And after a halt, the machine was first taken to idle. */
  lemma {:induction false} EntryAfterHaltPassesIdle(s: System, es: seq<Timed>) returns (k: nat, i: nat)
    requires Agree(s) && s.machine.current == Halted
    requires CheckNewEntry(Run(s, es).status) == Allowed
    ensures k < i && Revives(s, es, k) && Starts(s, es, i)
    decreases |es|
  {
    var t := Step(s, es[0].event, es[0].at);
    if t.machine.current == Halted {
      var k', i' := EntryAfterHaltPassesIdle(t, es[1..]);
      k, i := k' + 1, i' + 1;
      RunShift(s, es, k');
      RunShift(s, es, k' + 1);
      RunShift(s, es, i');
      assert es[1..][k'] == es[k] && es[1..][i'] == es[i];
    } else {
      var i' := EntryNeedsExplicitStart(t, es[1..]);
      k, i := 0, i' + 1;
      RunShift(s, es, 0);
      RunShift(s, es, i');
      assert es[..0] == [] && es[1..][..0] == [];
      assert es[1..][i'] == es[i];
    }
  }

  /** A small clock drift clears the block while the agent is halted; the mode alone then keeps the gate shut. */
  lemma DriftUnblocksWhileHalted(s: System, drift: int, now: int)
    requires Agree(s) && s.machine.current == Halted
    ensures var t := Step(s, UpdateNTPDrift(drift), now);
            && (drift < 200 * MS ==> !t.status.newEntriesBlocked)
            && CheckNewEntry(t.status) == ModeNotAllowed
  {}

  /**
    Halt, then idle, then paper trading: with everything else healthy, entries are allowed
    again exactly when the halt was given a reason. An unexplained halt stays blocked.
   */
  lemma ResumeNeedsReason(s: System, reason: string, a: int, b: int, c: int)
    requires Agree(s) && s.status.connectivity == Connected && s.status.integrity == Trusted
    requires s.status.ntpDrift <= 500 * MS
    ensures CheckNewEntry(Run(s, [Timed(Transition(Halted, reason), a), Timed(Transition(Idle, ""), b),
                                  Timed(Transition(PaperTrading, ""), c)]).status)
            == if reason != "" then Allowed else ExplicitlyBlocked
  {
    var es := [Timed(Transition(Halted, reason), a), Timed(Transition(Idle, ""), b), Timed(Transition(PaperTrading, ""), c)];
    assert es[1..][1..] == [es[2]];
    assert Run(s, es) == Run(Step(Step(s, es[0].event, a), es[1].event, b), [es[2]]);
  }

  /* ---------- Overlapping transitions ---------- */

  /**
    `waiting` are the transitions that the machine has accepted and the status does not show
    yet, `restoring` the modes of restarts that the status shows and the machine has not
    taken over yet, oldest first.
   */
  datatype Overlap = Overlap(system: System, waiting: seq<Event>, restoring: seq<RunMode>)

  datatype Phase =
    | Accept(to: RunMode, reason: string)
    | Write(index: nat, at: int)
    | Install(snapshot: Status, at: int)
    | TakeOver(index: nat)
    | Other(event: Event, at: int)

  function PhaseStep(o: Overlap, p: Phase): Overlap {
    match p
    case Accept(to, reason) =>
      if Permitted(o.system.machine.current, to)
      then o.(system := o.system.(machine := Move(o.system.machine, to)), waiting := o.waiting + [Transition(to, reason)])
      else o
    case Write(index, at) =>
      if index < |o.waiting| && o.waiting[index].Transition?
      then o.(system := o.system.(status := Record(o.system.status, o.waiting[index].to, o.waiting[index].reason, at)),
              waiting := o.waiting[..index] + o.waiting[index + 1..])
      else o
    case Install(snapshot, at) =>
      o.(system := o.system.(status := Restored(snapshot, at)), restoring := o.restoring + [Restored(snapshot, at).mode])
    case TakeOver(index) =>
      if index < |o.restoring|
      then o.(system := o.system.(machine := Machine(o.restoring[index], o.system.machine.current)),
              restoring := o.restoring[..index] + o.restoring[index + 1..])
      else o
    case Other(e, at) => if e.Transition? || e.Restore? then o else o.(system := Step(o.system, e, at))
  }

  function PhaseRun(o: Overlap, ps: seq<Phase>): Overlap
    decreases |ps|
  {
    if ps == [] then o else PhaseRun(PhaseStep(o, ps[0]), ps[1..])
  }

  /** What the status will show once everything that waits has been written in order. */
  ghost predicate WillAgree(o: Overlap) {
    && (forall e :: e in o.waiting ==> e.Transition?)
    && o.system.machine.current == if o.waiting == [] then o.system.status.mode else o.waiting[|o.waiting| - 1].to
  }

  lemma PhaseWillAgree(o: Overlap, p: Phase)
    requires WillAgree(o) && (p.Write? ==> p.index == 0) && !p.Install? && !p.TakeOver?
    ensures WillAgree(PhaseStep(o, p))
  {
    if p.Accept? {
      assert forall e :: e in o.waiting + [Transition(p.to, p.reason)] ==> e in o.waiting || e == Transition(p.to, p.reason);
    } else if p.Write? && o.waiting != [] {
      assert o.waiting[0] in o.waiting;
      assert o.waiting[..0] + o.waiting[1..] == o.waiting[1..];
    }
  }

  /** Between restarts, if the status is always written in the order of acceptance, the modes agree whenever nothing waits. */
  lemma {:induction false} InOrderWritesAgree(o: Overlap, ps: seq<Phase>)
    requires WillAgree(o)
    requires forall i :: 0 <= i < |ps| ==> !ps[i].Install? && !ps[i].TakeOver? && (ps[i].Write? ==> ps[i].index == 0)
    ensures WillAgree(PhaseRun(o, ps))
    ensures PhaseRun(o, ps).waiting == [] ==> Agree(PhaseRun(o, ps).system)
    decreases |ps|
  {
    if ps != [] {
      PhaseWillAgree(o, ps[0]);
      InOrderWritesAgree(PhaseStep(o, ps[0]), ps[1..]);
    }
  }

  /* ---------- Exactly when overlapping transitions agree ---------- */

  predicate Accepts(o: Overlap, p: Phase) { p.Accept? && Permitted(o.system.machine.current, p.to) }

  predicate Writes(o: Overlap, p: Phase) { p.Write? && p.index < |o.waiting| && o.waiting[p.index].Transition? }

  predicate TakesOver(o: Overlap, p: Phase) { p.TakeOver? && p.index < |o.restoring| }

  /** The mode of the last transition the machine accepted or restart it took over; before any, the machine's mode. */
  function LastAccepted(o: Overlap, ps: seq<Phase>): RunMode {
    if ps == [] then o.system.machine.current
    else
      var n := |ps| - 1;
      var before := PhaseRun(o, ps[..n]);
      if Accepts(before, ps[n]) then ps[n].to
      else if TakesOver(before, ps[n]) then before.restoring[ps[n].index]
      else LastAccepted(o, ps[..n])
  }

  /** The mode of the last transition or restart that was written to the status; before any, the status's mode. */
  function LastWritten(o: Overlap, ps: seq<Phase>): RunMode {
    if ps == [] then o.system.status.mode
    else
      var n := |ps| - 1;
      var before := PhaseRun(o, ps[..n]);
      if Writes(before, ps[n]) then before.waiting[ps[n].index].to
      else if ps[n].Install? then Restored(ps[n].snapshot, ps[n].at).mode
      else LastWritten(o, ps[..n])
  }

  lemma {:induction false} PhaseRunLast(o: Overlap, ps: seq<Phase>)
    requires ps != []
    ensures PhaseRun(o, ps) == PhaseStep(PhaseRun(o, ps[..|ps| - 1]), ps[|ps| - 1])
    decreases |ps|
  {
    if |ps| == 1 {
      assert PhaseRun(PhaseStep(o, ps[0]), ps[1..]) == PhaseStep(o, ps[0]);
    } else {
      assert ps[1..][..|ps| - 2] == ps[..|ps| - 1][1..];
      PhaseRunLast(PhaseStep(o, ps[0]), ps[1..]);
    }
  }

  lemma StepKeepsModes(s: System, e: Event, now: int)
    requires !e.Transition? && !e.Restore?
    ensures Step(s, e, now).machine == s.machine && Step(s, e, now).status.mode == s.status.mode
  {
  }

  lemma PhaseModes(o: Overlap, p: Phase)
    ensures PhaseStep(o, p).system.machine.current ==
            if Accepts(o, p) then p.to
            else if TakesOver(o, p) then o.restoring[p.index]
            else o.system.machine.current
    ensures PhaseStep(o, p).system.status.mode ==
            if Writes(o, p) then o.waiting[p.index].to
            else if p.Install? then Restored(p.snapshot, p.at).mode
            else o.system.status.mode
  {
    if p.Other? && !p.event.Transition? && !p.event.Restore? { StepKeepsModes(o.system, p.event, p.at); }
  }

  /** In any interleaving, the machine is in the last accepted mode and the status shows the last written one. */
  lemma {:induction false} ModesAre(o: Overlap, ps: seq<Phase>)
    ensures PhaseRun(o, ps).system.machine.current == LastAccepted(o, ps)
    ensures PhaseRun(o, ps).system.status.mode == LastWritten(o, ps)
  {
    if ps != [] {
      ModesAre(o, ps[..|ps| - 1]);
      PhaseRunLast(o, ps);
      PhaseModes(PhaseRun(o, ps[..|ps| - 1]), ps[|ps| - 1]);
    }
  }

  /** So they agree exactly when what was written last has the mode of what was accepted or taken over last. */
  lemma AgreeExactlyWhen(o: Overlap, ps: seq<Phase>)
    ensures Agree(PhaseRun(o, ps).system) <==> LastWritten(o, ps) == LastAccepted(o, ps)
  {
    ModesAre(o, ps);
  }

  /** What besides the mode opens the gate. */
  predicate Healthy(s: Status) {
    && s.connectivity == Connected && s.integrity == Trusted && s.ntpDrift <= 500 * MS
    && (s.mode == LiveTrading ==> s.license == Licensed || s.license == Grace)
  }

  /** A halted machine leaves the gate open exactly when a start was written last, and nothing else blocks. */
  lemma HaltedGateOpenExactlyWhen(o: Overlap, ps: seq<Phase>)
    ensures var t := PhaseRun(o, ps).system;
            t.machine.current == Halted && CheckNewEntry(t.status) == Allowed <==>
            && LastAccepted(o, ps) == Halted && Trading(LastWritten(o, ps))
            && !t.status.newEntriesBlocked && Healthy(t.status)
  {
    ModesAre(o, ps);
  }

  /** Two overlapping transitions, written in the order of acceptance or the other way round. */
  function TwoOverlapping(a: Event, b: Event, swapped: bool, x: int, y: int): seq<Phase>
    requires a.Transition? && b.Transition?
  {
    [Accept(a.to, a.reason), Accept(b.to, b.reason), Write(if swapped then 1 else 0, x), Write(0, y)]
  }

  lemma FourSteps(o: Overlap, a: Phase, b: Phase, c: Phase, d: Phase)
    ensures PhaseRun(o, [a, b, c, d]) == PhaseStep(PhaseStep(PhaseStep(PhaseStep(o, a), b), c), d)
  {
    PhaseRunLast(o, [a, b, c, d]);
    assert [a, b, c, d][..3] == [a, b, c];
    PhaseRunLast(o, [a, b, c]);
    assert [a, b, c][..2] == [a, b];
    PhaseRunLast(o, [a, b]);
    assert [a, b][..1] == [a];
    PhaseRunLast(o, [a]);
    assert [a][..0] == [];
  }

  lemma TwoOverlappingRun(s: System, a: Event, b: Event, swapped: bool, x: int, y: int)
    requires a.Transition? && b.Transition? && Permitted(s.machine.current, a.to) && Permitted(a.to, b.to)
    ensures var t := PhaseRun(Overlap(s, [], []), TwoOverlapping(a, b, swapped, x, y));
            && t.waiting == [] && t.system.machine.current == b.to
            && t.system.status == if swapped then Record(Record(s.status, b.to, b.reason, x), a.to, a.reason, y)
                                  else Record(Record(s.status, a.to, a.reason, x), b.to, b.reason, y)
  {
    var i := if swapped then 1 else 0;
    FourSteps(Overlap(s, [], []), Accept(a.to, a.reason), Accept(b.to, b.reason), Write(i, x), Write(0, y));
    var o1 := PhaseStep(Overlap(s, [], []), Accept(a.to, a.reason));
    assert o1.system.machine.current == a.to && o1.waiting == [a];
    var o2 := PhaseStep(o1, Accept(b.to, b.reason));
    assert o2.system.machine.current == b.to && o2.waiting == [a, b] && o2.system.status == s.status;
    var o3 := PhaseStep(o2, Write(i, x));
    assert o3.waiting == [if swapped then a else b];
  }

  /** Two overlapping transitions leave the modes in agreement exactly when they are written in order or have one target. */
  lemma TwoAgreeExactlyWhen(s: System, a: Event, b: Event, swapped: bool, x: int, y: int)
    requires a.Transition? && b.Transition? && Permitted(s.machine.current, a.to) && Permitted(a.to, b.to)
    ensures Agree(PhaseRun(Overlap(s, [], []), TwoOverlapping(a, b, swapped, x, y)).system) <==> !swapped || a.to == b.to
  {
    TwoOverlappingRun(s, a, b, swapped, x, y);
  }

  /**
    A start overtaken by a halt, then a clock reading: the halted machine is behind an open
    gate exactly when the halt was written first, the drift is small, and nothing else blocks.
   */
  lemma OvertakenHaltExactlyWhen(s: System, start: Event, halt: Event, swapped: bool, x: int, y: int, drift: int, z: int)
    requires start.Transition? && halt.Transition? && Trading(start.to) && halt.to == Halted
    requires Permitted(s.machine.current, start.to)
    ensures var ps := TwoOverlapping(start, halt, swapped, x, y) + [Other(UpdateNTPDrift(drift), z)];
            var t := PhaseRun(Overlap(s, [], []), ps).system;
            && t.machine.current == Halted
            && (CheckNewEntry(t.status) == Allowed <==>
                && swapped && drift < 200 * MS
                && s.status.connectivity == Connected && s.status.integrity == Trusted
                && (start.to == LiveTrading ==> s.status.license == Licensed || s.status.license == Grace))
  {
    var four := TwoOverlapping(start, halt, swapped, x, y);
    var ps := four + [Other(UpdateNTPDrift(drift), z)];
    TwoOverlappingRun(s, start, halt, swapped, x, y);
    PhaseRunLast(Overlap(s, [], []), ps);
    assert ps[..4] == four;
  }

  lemma FiveSteps(o: Overlap, a: Phase, b: Phase, c: Phase, d: Phase, e: Phase)
    ensures PhaseRun(o, [a, b, c, d, e]) ==
            PhaseStep(PhaseStep(PhaseStep(PhaseStep(PhaseStep(o, a), b), c), d), e)
  {
    var ps := [a, b, c, d, e];
    assert ps[1..][1..] == [c, d, e];
    assert ps[1..][1..][1..] == [d, e];
    assert ps[1..][1..][1..][1..] == [e];
    var o1 := PhaseStep(o, a);
    var o2 := PhaseStep(o1, b);
    var o3 := PhaseStep(o2, c);
    var o4 := PhaseStep(o3, d);
    assert PhaseRun(o, ps) == PhaseRun(o1, ps[1..]) == PhaseRun(o2, [c, d, e]) == PhaseRun(o3, [d, e]) == PhaseRun(o4, [e]);
    assert PhaseRun(o4, [e]) == PhaseRun(PhaseStep(o4, e), []);
  }

  /**
    Out of order, a halt can be lost: a start is accepted, a halt is accepted and written,
    the start is written last. The machine is halted for good, and the gate admits entries.
   */
  lemma HaltedMachineOpenGate(now: int)
    ensures var o := PhaseRun(Overlap(Initial(now), [], []),
                              [Accept(PaperTrading, "start"), Accept(Halted, "risk"), Write(1, now), Write(0, now),
                               Other(UpdateNTPDrift(0), now)]);
            && o.waiting == []
            && o.system.machine.current == Halted
            && o.system.status.mode == PaperTrading
            && CheckNewEntry(o.system.status) == Allowed
  {
    FiveSteps(Overlap(Initial(now), [], []), Accept(PaperTrading, "start"), Accept(Halted, "risk"),
              Write(1, now), Write(0, now), Other(UpdateNTPDrift(0), now));
  }
}
