/**
  What the runtime status says, told from the transitions, updates and restarts alone, and
  from that when the trading gate lets an entry pass. Durations are in nanoseconds.
*/
module RuntimeHistory {
  import opened Entities
  import opened Runtime

  lemma {:induction false} RunSnoc(s: System, es: seq<Timed>)
    requires es != []
    ensures Run(s, es) == Step(Run(s, es[..|es| - 1]), es[|es| - 1].event, es[|es| - 1].at)
    decreases |es|
  {
    var n := |es| - 1;
    if n > 0 {
      assert es[..n][0] == es[0] && es[..n][1..] == es[1..][..n - 1];
      RunSnoc(Step(s, es[0].event, es[0].at), es[1..]);
    }
  }

  /** A transition is refused only out of a halt, to anything but idle or the halt itself. */
  predicate Accepted(es: seq<Timed>, to: RunMode)
    decreases |es|, 1
  {
    LastMode(es) != Halted || to == Idle || to == Halted
  }

  /** A restart comes up idle after an orderly end, and halted otherwise. */
  predicate CameUpHalted(snapshot: Status) { !snapshot.mode.Idle? && !snapshot.mode.Unknown? }

  function LastMode(es: seq<Timed>): RunMode
    decreases |es|, 0
  {
    if es == [] then Idle
    else
      var front, e := es[..|es| - 1], es[|es| - 1].event;
      match e
      case Transition(to, _) => if Accepted(front, to) then to else LastMode(front)
      case Restore(snapshot) => if CameUpHalted(snapshot) then Halted else Idle
      case _ => LastMode(front)
  }

  /** The reason given for the last halt, until the next idle. */
  function HaltReason(es: seq<Timed>): string {
    if es == [] then ""
    else
      var front, e := es[..|es| - 1], es[|es| - 1].event;
      match e
      case Transition(to, reason) =>
        if to == Halted then reason else if to == Idle then "" else HaltReason(front)
      case Restore(snapshot) =>
        if !CameUpHalted(snapshot) then ""
        else if snapshot.mode != Halted then "unclean restart from " + ModeName(snapshot.mode)
        else if snapshot.haltReason == "" then "restored halted runtime snapshot"
        else snapshot.haltReason
      case _ => HaltReason(front)
  }

  /** The last that decided it: a halt, an idle that ends a halt with a reason, a clock reading, a restart. */
  function Blocked(es: seq<Timed>): bool {
    if es == [] then false
    else
      var front, e := es[..|es| - 1], es[|es| - 1].event;
      match e
      case Transition(to, _) =>
        if to == Halted then true else if to == Idle && HaltReason(front) != "" then false else Blocked(front)
      case UpdateNTPDrift(drift) =>
        if drift > 500_000_000 then true else if drift < 200_000_000 then false else Blocked(front)
      case Restore(snapshot) => CameUpHalted(snapshot) || snapshot.newEntriesBlocked
      case _ => Blocked(front)
  }

  function LastLink(es: seq<Timed>): Connectivity {
    if es == [] then Connected
    else
      match es[|es| - 1].event
      case SetConnectivity(c) => c
      case Restore(snapshot) => if snapshot.connectivity.Unset? then Connected else snapshot.connectivity
      case _ => LastLink(es[..|es| - 1])
  }

  function LastIntegrity(es: seq<Timed>): Integrity {
    if es == [] then Trusted
    else
      match es[|es| - 1].event
      case SetIntegrity(i) => i
      case Restore(snapshot) => if snapshot.integrity.Unset? then Trusted else snapshot.integrity
      case _ => LastIntegrity(es[..|es| - 1])
  }

  function LastLicense(es: seq<Timed>): License {
    if es == [] then Demo
    else
      match es[|es| - 1].event
      case SetLicense(l) => l
      case Restore(snapshot) => if snapshot.license.Unset? then Demo else snapshot.license
      case _ => LastLicense(es[..|es| - 1])
  }

  function LastDrift(es: seq<Timed>): int {
    if es == [] then 0
    else
      match es[|es| - 1].event
      case UpdateNTPDrift(drift) => drift
      case Restore(snapshot) => snapshot.ntpDrift
      case _ => LastDrift(es[..|es| - 1])
  }

  function EverDegraded(es: seq<Timed>): bool {
    if es == [] then false
    else
      match es[|es| - 1].event
      case Degrade => true
      case Restore(snapshot) => snapshot.analyticsDegraded
      case _ => EverDegraded(es[..|es| - 1])
  }

  /** When the agent was halted, while it is said to be; a restart keeps the time it was stored with. */
  function HaltedSince(es: seq<Timed>): Option<int> {
    if es == [] then None
    else
      var front, e, at := es[..|es| - 1], es[|es| - 1].event, es[|es| - 1].at;
      match e
      case Transition(to, _) =>
        if to == Halted then Some(at) else if to == Idle && HaltReason(front) != "" then None else HaltedSince(front)
      case Restore(snapshot) =>
        if !CameUpHalted(snapshot) then None
        else if snapshot.mode != Halted then Some(at)
        else if snapshot.haltedAt.Some? then snapshot.haltedAt
        else Some(snapshot.updatedAt.GetOr(at))
      case _ => HaltedSince(front)
  }

  /** The last halt, with its reason, or the licence, until the next idle that ends a halt with a reason. */
  function LastBanner(es: seq<Timed>): string {
    if es == [] then ""
    else
      var front, e := es[..|es| - 1], es[|es| - 1].event;
      match e
      case Transition(to, reason) =>
        if to == Halted then (if reason == "" then "halted" else "halted: " + reason)
        else if to == Idle && HaltReason(front) != "" then "" else LastBanner(front)
      case SetLicense(l) => if l == RiskOnly then "license expired" else LastBanner(front)
      case Restore(snapshot) => if CameUpHalted(snapshot) then "halted: " + HaltReason(es) else ""
      case _ => LastBanner(front)
  }

  /** When anything was last changed; a refused transition changes nothing, and an orderly restart keeps its time. */
  function LastUpdate(start: int, es: seq<Timed>): int {
    if es == [] then start
    else
      var front, e, at := es[..|es| - 1], es[|es| - 1].event, es[|es| - 1].at;
      match e
      case Transition(to, _) => if Accepted(front, to) then at else LastUpdate(start, front)
      case Restore(snapshot) =>
        if CameUpHalted(snapshot) && snapshot.mode != Halted then at else snapshot.updatedAt.GetOr(at)
      case _ => at
  }

  ghost predicate GateTold(s: System, es: seq<Timed>) {
    && s.machine.current == s.status.mode == LastMode(es) && s.status.newEntriesBlocked == Blocked(es)
    && s.status.connectivity == LastLink(es) && s.status.integrity == LastIntegrity(es)
    && s.status.license == LastLicense(es) && s.status.ntpDrift == LastDrift(es)
  }

  ghost predicate Told(s: System, start: int, es: seq<Timed>) {
    && GateTold(s, es)
    && s.status.haltReason == HaltReason(es) && s.status.analyticsDegraded == EverDegraded(es)
    && s.status.haltedAt == HaltedSince(es) && s.status.banner == LastBanner(es)
    && s.status.updatedAt == Some(LastUpdate(start, es))
  }

  lemma TransitionTold(s: System, start: int, es: seq<Timed>, e: Timed)
    requires Told(s, start, es) && e.event.Transition?
    ensures Told(Step(s, e.event, e.at), start, es + [e])
  {
    assert (es + [e])[..|es|] == es;
  }

  lemma RestoreGateTold(s: System, es: seq<Timed>, e: Timed)
    requires e.event.Restore?
    ensures GateTold(Step(s, e.event, e.at), es + [e])
  {
    assert (es + [e])[..|es|] == es;
  }

  lemma RestoreHaltTold(s: System, es: seq<Timed>, e: Timed)
    requires e.event.Restore?
    ensures var t := Step(s, e.event, e.at).status;
            && t.haltReason == HaltReason(es + [e]) && t.haltedAt == HaltedSince(es + [e]) && t.banner == LastBanner(es + [e])
  {
    assert (es + [e])[..|es|] == es;
  }

  lemma RestoreTold(s: System, start: int, es: seq<Timed>, e: Timed)
    requires e.event.Restore?
    ensures Told(Step(s, e.event, e.at), start, es + [e])
  {
    RestoreGateTold(s, es, e);
    RestoreHaltTold(s, es, e);
    assert (es + [e])[..|es|] == es;
  }

  lemma UpdateTold(s: System, start: int, es: seq<Timed>, e: Timed)
    requires Told(s, start, es) && !e.event.Transition? && !e.event.Restore?
    ensures Told(Step(s, e.event, e.at), start, es + [e])
  {
    assert (es + [e])[..|es|] == es;
  }

  /**
    After any run, the status shows for mode, halt reason and time, block, link, integrity,
    licence, clock drift, degradation, banner and last update what the last event that
    concerns each of them said.
   */
  lemma {:induction false} StatusTellsTheEvents(start: int, es: seq<Timed>)
    ensures Told(Run(Initial(start), es), start, es)
    decreases |es|
  {
    if es != [] {
      var front, e := es[..|es| - 1], es[|es| - 1];
      var s := Run(Initial(start), front);
      StatusTellsTheEvents(start, front);
      RunSnoc(Initial(start), es);
      assert es == front + [e];
      if e.event.Transition? { TransitionTold(s, start, front, e); }
      else if e.event.Restore? { RestoreTold(s, start, front, e); }
      else { UpdateTold(s, start, front, e); }
    }
  }

  /** So the gate lets an entry pass exactly under these conditions on what happened last. */
  lemma EntryAllowedExactlyWhen(start: int, es: seq<Timed>)
    ensures CheckNewEntry(Run(Initial(start), es).status) == Allowed <==>
            && (LastMode(es) == LiveTrading || LastMode(es) == PaperTrading)
            && !Blocked(es) && LastLink(es) == Connected && LastIntegrity(es) == Trusted
            && LastDrift(es) <= 500_000_000
            && (LastMode(es) == LiveTrading ==> LastLicense(es) == Licensed || LastLicense(es) == Grace)
  {
    StatusTellsTheEvents(start, es);
  }

  /* ---------- Overlapping transitions and restarts ---------- */

  /** What a phase adds to the transitions that the machine accepted, and to those written to the status. */
  ghost function AcceptedBy(o: Overlap, p: Phase): multiset<Event> {
    if Accepts(o, p) then multiset{Transition(p.to, p.reason)} else multiset{}
  }

  ghost function WrittenBy(o: Overlap, p: Phase): multiset<Event> {
    if Writes(o, p) then multiset{o.waiting[p.index]} else multiset{}
  }

  /** What it adds to the modes that restarts put into the status, and to those that the machine took over. */
  ghost function InstalledBy(p: Phase): multiset<RunMode> {
    if p.Install? then multiset{if CameUpHalted(p.snapshot) then Halted else Idle} else multiset{}
  }

  ghost function TakenOverBy(o: Overlap, p: Phase): multiset<RunMode> {
    if TakesOver(o, p) then multiset{o.restoring[p.index]} else multiset{}
  }

  ghost function AcceptedIn(o: Overlap, ps: seq<Phase>): multiset<Event> {
    if ps == [] then multiset{}
    else AcceptedIn(o, ps[..|ps| - 1]) + AcceptedBy(PhaseRun(o, ps[..|ps| - 1]), ps[|ps| - 1])
  }

  ghost function WrittenIn(o: Overlap, ps: seq<Phase>): multiset<Event> {
    if ps == [] then multiset{}
    else WrittenIn(o, ps[..|ps| - 1]) + WrittenBy(PhaseRun(o, ps[..|ps| - 1]), ps[|ps| - 1])
  }

  ghost function InstalledIn(ps: seq<Phase>): multiset<RunMode> {
    if ps == [] then multiset{} else InstalledIn(ps[..|ps| - 1]) + InstalledBy(ps[|ps| - 1])
  }

  ghost function TakenOverIn(o: Overlap, ps: seq<Phase>): multiset<RunMode> {
    if ps == [] then multiset{}
    else TakenOverIn(o, ps[..|ps| - 1]) + TakenOverBy(PhaseRun(o, ps[..|ps| - 1]), ps[|ps| - 1])
  }

  lemma WithoutOne<T>(s: seq<T>, i: nat)
    requires i < |s|
    ensures multiset(s[..i] + s[i + 1..]) + multiset{s[i]} == multiset(s)
  {
    assert s == s[..i] + [s[i]] + s[i + 1..];
  }

  /** A list that gained `x` at its end, or lost its element `i`, or neither. */
  lemma Exchanged<T>(s: seq<T>, t: seq<T>, gains: bool, x: T, loses: bool, i: nat)
    requires !(gains && loses) && (loses ==> i < |s|)
    requires t == if gains then s + [x] else if loses then s[..i] + s[i + 1..] else s
    ensures multiset(t) + (if loses then multiset{s[i]} else multiset{})
            == multiset(s) + (if gains then multiset{x} else multiset{})
  {
    if loses { WithoutOne(s, i); }
  }

  /** What a phase does to the transitions that wait to be written. */
  lemma PhaseWaiting(o: Overlap, p: Phase)
    ensures PhaseStep(o, p).waiting ==
            if Accepts(o, p) then o.waiting + [Transition(p.to, p.reason)]
            else if Writes(o, p) then o.waiting[..p.index] + o.waiting[p.index + 1..]
            else o.waiting
  {
  }

  lemma PhaseConservesTransitions(o: Overlap, p: Phase)
    ensures multiset(PhaseStep(o, p).waiting) + WrittenBy(o, p) == multiset(o.waiting) + AcceptedBy(o, p)
  {
    PhaseWaiting(o, p);
    Exchanged(o.waiting, PhaseStep(o, p).waiting, Accepts(o, p), if p.Accept? then Transition(p.to, p.reason) else Degrade,
              Writes(o, p), if p.Write? then p.index else 0);
  }

  /** What a phase does to the modes that wait for the machine. */
  lemma PhaseRestoring(o: Overlap, p: Phase)
    ensures PhaseStep(o, p).restoring ==
            if p.Install? then o.restoring + [if CameUpHalted(p.snapshot) then Halted else Idle]
            else if TakesOver(o, p) then o.restoring[..p.index] + o.restoring[p.index + 1..]
            else o.restoring
  {
  }

  lemma PhaseConservesRestarts(o: Overlap, p: Phase)
    ensures multiset(PhaseStep(o, p).restoring) + TakenOverBy(o, p) == multiset(o.restoring) + InstalledBy(p)
  {
    PhaseRestoring(o, p);
    Exchanged(o.restoring, PhaseStep(o, p).restoring, p.Install?, if p.Install? && CameUpHalted(p.snapshot) then Halted else Idle,
              TakesOver(o, p), if p.TakeOver? then p.index else 0);
  }

  lemma Balanced<T>(before: multiset<T>, after: multiset<T>, came: multiset<T>, went: multiset<T>,
                    gained: multiset<T>, lost: multiset<T>)
    requires came == went + before && after + lost == before + gained
    ensures came + gained == went + lost + after
  {
    assert went + lost + after == went + (after + lost);
    assert came + gained == went + (before + gained);
  }

  /** In any interleaving each accepted transition has been written to the status once or still waits to be. */
  lemma {:induction false} AcceptedAreWrittenOrWait(s: System, ps: seq<Phase>)
    ensures var o, t := Overlap(s, [], []), PhaseRun(Overlap(s, [], []), ps);
            AcceptedIn(o, ps) == WrittenIn(o, ps) + multiset(t.waiting)
  {
    var o := Overlap(s, [], []);
    if ps != [] {
      var front, p := ps[..|ps| - 1], ps[|ps| - 1];
      var t := PhaseRun(o, front);
      AcceptedAreWrittenOrWait(s, front);
      PhaseRunLast(o, ps);
      PhaseConservesTransitions(t, p);
      Balanced(multiset(t.waiting), multiset(PhaseStep(t, p).waiting), AcceptedIn(o, front), WrittenIn(o, front),
               AcceptedBy(t, p), WrittenBy(t, p));
    }
  }

  /** And the mode of each restart has been taken over by the machine once or is still to be. */
  lemma {:induction false} RestartsAreTakenOverOrWait(s: System, ps: seq<Phase>)
    ensures var o, t := Overlap(s, [], []), PhaseRun(Overlap(s, [], []), ps);
            InstalledIn(ps) == TakenOverIn(o, ps) + multiset(t.restoring)
  {
    var o := Overlap(s, [], []);
    if ps != [] {
      var front, p := ps[..|ps| - 1], ps[|ps| - 1];
      var t := PhaseRun(o, front);
      RestartsAreTakenOverOrWait(s, front);
      PhaseRunLast(o, ps);
      PhaseConservesRestarts(t, p);
      Balanced(multiset(t.restoring), multiset(PhaseStep(t, p).restoring), InstalledIn(front), TakenOverIn(o, front),
               InstalledBy(p), TakenOverBy(t, p));
    }
  }
}
