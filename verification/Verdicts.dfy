/**
  What a tick, a release and the lock monitor decide, in terms of the answers alone.
 */
module Verdicts {
  import opened Wrappers
  import opened Leases
  import opened Controllers
  import opened Discipline
  import opened Election

  // ---------------------------------------------------------------------------------------
  // From the start of a tick to its end
  // ---------------------------------------------------------------------------------------

  /** A path that has come to rest. */
  ghost predicate Whole(who: Who, feed: Feed, pos: nat, path: seq<Ctl>) {
    Path(who, feed, pos, path) && !Busy(path[|path| - 1].phase)
  }

  /** A request for the lock is granted on the way. */
  ghost predicate Granted(feed: Feed, pos: nat, path: seq<Ctl>) {
    exists i :: 0 <= i < |path| - 1 && GrantedAt(feed, pos, path, i)
  }

  ghost predicate GrantedAt(feed: Feed, pos: nat, path: seq<Ctl>, i: nat)
    requires i < |path|
  {
    path[i].phase == Acquiring && feed(pos + i).answer == Got(Flag(true))
  }

  /** What is granted is granted at the first step or later. */
  lemma GrantedFrom(feed: Feed, pos: nat, path: seq<Ctl>)
    requires |path| > 1
    ensures Granted(feed, pos, path) <==> GrantedAt(feed, pos, path, 0) || Granted(feed, pos + 1, path[1..])
  {
    if Granted(feed, pos, path) && !GrantedAt(feed, pos, path, 0) {
      var i :| 0 <= i < |path| - 1 && GrantedAt(feed, pos, path, i);
      assert GrantedAt(feed, pos + 1, path[1..], i - 1);
    }
    if Granted(feed, pos + 1, path[1..]) {
      var i :| 0 <= i < |path[1..]| - 1 && GrantedAt(feed, pos + 1, path[1..], i);
      assert GrantedAt(feed, pos, path, i + 1);
    }
  }

  lemma OneHop(who: Who, feed: Feed, pos: nat, path: seq<Ctl>)
    requires Whole(who, feed, pos, path) && Busy(path[0].phase) && Orderly(who, path[0])
    ensures |path| > 1 && path[1] == Resume(who, path[0], feed(pos).at, feed(pos).answer)
    ensures Orderly(who, path[1]) && Whole(who, feed, pos + 1, path[1..])
    ensures path[1..][|path[1..]| - 1] == path[|path| - 1] && (!Busy(path[1].phase) ==> |path| == 2)
    ensures Granted(feed, pos, path) <==> GrantedAt(feed, pos, path, 0) || Granted(feed, pos + 1, path[1..])
  {
    assert Hop(who, feed, pos, path, 0);
    ResumeKeepsOrder(who, path[0], feed(pos).at, feed(pos).answer);
    var rest, next := path[1..], pos + 1;
    forall i | 0 <= i < |rest| - 1
      ensures Hop(who, feed, next, rest, i)
    {
      assert Hop(who, feed, pos, path, i + 1);
    }
    if |path| > 2 {
      assert Hop(who, feed, pos, path, 1);
    }
    GrantedFrom(feed, pos, path);
  }

  /** Out of office: no flag, no workloads, and the monitor knows. */
  predicate Out(c: Ctl) {
    !c.leader && !c.started && !c.gauge.monLeader
  }

  /** In office, with the workloads started and nothing held against the storage. */
  predicate In(c: Ctl) {
    c.leader && c.started && c.gauge.monLeader && c.failures == 0
  }

  /** A lost leadership is not regained within the tick, whoever is found to lead. That somebody is
      found clears the failure count. */
  lemma {:induction false} LossIsFinal(who: Who, feed: Feed, pos: nat, path: seq<Ctl>)
    requires Whole(who, feed, pos, path) && Orderly(who, path[0])
    requires path[0].phase == Stopping(true) || (path[0].phase.Reading? && path[0].phase.site.AfterLoss?)
    ensures Out(path[|path| - 1]) && !Granted(feed, pos, path)
    ensures path[0].phase.Stopping? ==> path[|path| - 1].failures == path[0].failures && |path| == 2
    ensures path[0].phase.Reading? ==>
              && |path| > 2
              && path[|path| - 1].failures == if Holder(feed(pos + (|path| - 3)).answer) != "" then 0 else path[0].failures
    decreases |path|
  {
    OneHop(who, feed, pos, path);
    if path[0].phase.Reading? {
      LossIsFinal(who, feed, pos + 1, path[1..]);
    }
  }

  /** Whatever its verification finds, a granted lock makes a leader whose workloads run. */
  lemma {:induction false} GrantIsUsed(who: Who, feed: Feed, pos: nat, path: seq<Ctl>)
    requires Whole(who, feed, pos, path) && Orderly(who, path[0])
    requires path[0].phase in {Reusing, Waiting, Starting} || (path[0].phase.Reading? && path[0].phase.site.AfterAcquire?)
    ensures In(path[|path| - 1]) && path[|path| - 1].gauge.state == path[0].gauge.state
    decreases |path|
  {
    OneHop(who, feed, pos, path);
    if Busy(path[1].phase) {
      GrantIsUsed(who, feed, pos + 1, path[1..]);
    }
  }

  /** A look at its own workloads spares a returning controller the wait exactly if it finds them
      in order. */
  lemma ReuseSparesTheWait(who: Who, feed: Feed, pos: nat, path: seq<Ctl>)
    requires Whole(who, feed, pos, path) && Orderly(who, path[0]) && path[0].phase == Reusing
    ensures if feed(pos).answer == Got(Flag(true)) then |path| == 3 && path[1].phase == Starting && path[1].started
            else |path| == 4 && path[1].phase == Waiting && !path[1].started && path[2].phase == Starting && path[2].started
  {
    OneHop(who, feed, pos, path);
    OneHop(who, feed, pos + 1, path[1..]);
    if path[1].phase.Waiting? {
      OneHop(who, feed, pos + 2, path[1..][1..]);
    }
  }

  /** Whoever asks for the lock leads afterwards exactly if it is granted. */
  lemma {:induction false} GrantDecides(who: Who, feed: Feed, pos: nat, path: seq<Ctl>)
    requires Whole(who, feed, pos, path) && Orderly(who, path[0])
    requires path[0].phase.Acquiring? || (path[0].phase.Reading? && path[0].phase.site in {BeforeTick, BeforeAcquire})
    ensures var c := path[|path| - 1];
            if Granted(feed, pos, path) then In(c) && c.gauge.state == Normal else !c.leader && !c.started
    ensures path[0].leader && !Granted(feed, pos, path) ==> Out(path[|path| - 1])
    ensures who.remainFollower ==> !Granted(feed, pos, path)
    decreases |path|
  {
    OneHop(who, feed, pos, path);
    var c := path[1];
    if c.phase.Reading? && c.phase.site.AfterAcquire? {
      GrantIsUsed(who, feed, pos + 1, path[1..]);
    } else if c.phase.Reading? && c.phase.site.AfterLoss? {
      LossIsFinal(who, feed, pos + 1, path[1..]);
    } else if Busy(c.phase) {
      GrantDecides(who, feed, pos + 1, path[1..]);
    }
  }

  /** The reads before a request. */
  predicate LookingOut(phase: Phase) {
    phase.Reading? && phase.site in {BeforeTick, BeforeAcquire}
  }

  lemma LookOut(who: Who, c: Ctl, now: int, a: Answer)
    requires LookingOut(c.phase)
    ensures var c' := Resume(who, c, now, a);
            && (Busy(c'.phase) && !c'.phase.Acquiring? && !c.leader ==> LookingOut(c'.phase))
            && (LookingOut(c'.phase) ==> c'.failures == c.failures && c'.gauge == c.gauge && c'.leader == c.leader)
            && (c'.phase.Acquiring? ==>
                  && c'.failures == c.failures + (if a == Failed(true) then 1 else 0)
                  && c'.gauge.state == (if a == Failed(true) then Degraded else c.gauge.state)
                  && c'.gauge.monLeader == c.gauge.monLeader)
  {
  }

  lemma Asked(who: Who, c: Ctl, now: int, a: Answer)
    requires c.phase.Acquiring?
    ensures var c' := Resume(who, c, now, a);
            if a.Got? then c'.failures == 0 && c'.gauge.state == Normal && c'.gauge.monLeader == (a == Got(Flag(true)))
            else c'.failures == c.failures && c'.gauge == c.gauge
  {
  }

  /** What a request leaves in the books. An answered one clears the failure count and tells the monitor
      who leads; a lost read before it counts once, however often it was repeated, and a lost request
      does not count. */
  lemma {:induction false} AskingIsBooked(who: Who, feed: Feed, pos: nat, path: seq<Ctl>, k: nat)
    requires Whole(who, feed, pos, path) && Orderly(who, path[0]) && LookingOut(path[0].phase) && !path[0].leader
    requires 0 < k < |path| - 1 && path[k].phase.Acquiring?
    requires forall j :: 0 <= j < k ==> !path[j].phase.Acquiring?
    ensures var c, c' := path[0], path[k + 1];
            var lost := feed(pos + (k - 1)).answer == Failed(true);
            if feed(pos + k).answer.Got? then
              c'.failures == 0 && c'.gauge.state == Normal && c'.gauge.monLeader == (feed(pos + k).answer == Got(Flag(true)))
            else
              && c'.failures == c.failures + (if lost then 1 else 0)
              && c'.gauge.state == (if lost then Degraded else c.gauge.state) && c'.gauge.monLeader == c.gauge.monLeader
    decreases |path|
  {
    var rest := path[1..];
    OneHop(who, feed, pos, path);
    LookOut(who, path[0], feed(pos).at, feed(pos).answer);
    if k > 1 {
      assert forall j :: 0 <= j < k - 1 ==> rest[j] == path[j + 1];
      assert rest[k - 1] == path[k] && rest[k] == path[k + 1];
      AskingIsBooked(who, feed, pos + 1, rest, k - 1);
    } else {
      OneHop(who, feed, pos + 1, rest);
      Asked(who, rest[0], feed(pos + 1).at, feed(pos + 1).answer);
    }
  }

  /** A follower's tick makes a leader exactly if a request for the lock is granted. */
  lemma FollowerTick(who: Who, feed: Feed, pos: nat, path: seq<Ctl>)
    requires Whole(who, feed, pos, path) && Orderly(who, path[0]) && path[0].phase == Reading(BeforeTick, 0)
    ensures var c := path[|path| - 1];
            if Granted(feed, pos, path) then In(c) && c.gauge.state == Normal else !c.leader && !c.started
    ensures who.remainFollower ==> !Granted(feed, pos, path)
  {
    GrantDecides(who, feed, pos, path);
  }

  /** A leader's tick ends in one of four ways: it tolerates a lost connection, it asks again for a
      lock that nobody holds, it renews its own, or it finds somebody else and steps down. */
  lemma LeaderTick(who: Who, feed: Feed, pos: nat, path: seq<Ctl>)
    requires Whole(who, feed, pos, path) && Orderly(who, path[0]) && path[0].phase == Checking
    ensures var c, c', found := path[0], path[|path| - 1], feed(pos).answer;
            && (if KeepsOffice(who, feed, pos, path) then c'.leader && c'.started && c'.gauge.monLeader else Out(c'))
            && (found == Failed(true) && c.failures < 2 ==> c'.failures == c.failures + 1 && c'.gauge.state == Degraded)
            && (found.Got? && Holder(found) == "" && c'.leader ==> c'.failures == 0 && c'.gauge.state == Normal)
  {
    var found := feed(pos).answer;
    OneHop(who, feed, pos, path);
    if found.Got? && Holder(found) == "" {
      GrantDecides(who, feed, pos + 1, path[1..]);
    } else if found.Got? && Holder(found) == who.id {
      Renewal(who, feed, pos + 1, path[1..]);
    } else if Busy(path[1].phase) {
      LossIsFinal(who, feed, pos + 1, path[1..]);
    }
  }

  ghost predicate KeepsOffice(who: Who, feed: Feed, pos: nat, path: seq<Ctl>)
    requires path != []
  {
    var found, renewal := feed(pos).answer, feed(pos + 1).answer;
    if found.Failed? then found.conn && path[0].failures < 2
    else if Holder(found) == "" then Granted(feed, pos, path)
    else Holder(found) == who.id && (renewal == Failed(true) || renewal == Got(Flag(true)))
  }

  lemma Renewal(who: Who, feed: Feed, pos: nat, path: seq<Ctl>)
    requires Whole(who, feed, pos, path) && Orderly(who, path[0]) && path[0].phase == Renewing
    ensures var a, c := feed(pos).answer, path[|path| - 1];
            if a == Failed(true) || a == Got(Flag(true)) then
              && c.leader && c.started && c.gauge.monLeader
              && c.failures == (if a.Failed? then 1 else 0) && c.gauge.state == (if a.Failed? then Degraded else Normal)
            else Out(c)
  {
    OneHop(who, feed, pos, path);
    if path[1].phase.Measuring? {
      OneHop(who, feed, pos + 1, path[1..]);
      if path[1..][1].phase.Reading? {
        LossIsFinal(who, feed, pos + 2, path[1..][1..]);
      }
    } else if path[1].phase.Reading? {
      LossIsFinal(who, feed, pos + 1, path[1..]);
    }
  }

  /** A release ends the tenure even if its call fails; then only the monitor is not told. A release
      is remembered exactly if the storage confirmed it. */
  lemma ReleaseEndsTenure(who: Who, feed: Feed, pos: nat, path: seq<Ctl>)
    requires Whole(who, feed, pos, path) && Orderly(who, path[0]) && path[0].phase == ReleaseInfo
    ensures var c, c', a := path[0], path[|path| - 1], feed(pos + 1).answer;
            && !c'.leader && !c'.started && c'.phase == (if c.halting then Halted else Idle)
            && c'.gauge.monLeader == (a.Failed? && c.gauge.monLeader)
            && c'.past.lastRelease == (if a == Got(Flag(true)) then Some(feed(pos + 2).at) else c.past.lastRelease)
            && |path| == (if a == Got(Flag(true)) then 5 else 4)
  {
    OneHop(who, feed, pos, path);
    CallEndsTenure(who, feed, pos + 1, path[1..]);
  }

  lemma CallEndsTenure(who: Who, feed: Feed, pos: nat, path: seq<Ctl>)
    requires Whole(who, feed, pos, path) && Orderly(who, path[0]) && path[0].phase == ReleaseCall
    ensures var c, c', a := path[0], path[|path| - 1], feed(pos).answer;
            && !c'.leader && !c'.started && c'.phase == (if c.halting then Halted else Idle)
            && c'.gauge.monLeader == (a.Failed? && c.gauge.monLeader)
            && c'.past.lastRelease == (if a == Got(Flag(true)) then Some(feed(pos + 1).at) else c.past.lastRelease)
            && |path| == (if a == Got(Flag(true)) then 4 else 3)
  {
    OneHop(who, feed, pos, path);
    OneHop(who, feed, pos + 1, path[1..]);
    if path[1].phase.ReleaseCheck? {
      OneHop(who, feed, pos + 2, path[1..][1..]);
    }
  }

  // ---------------------------------------------------------------------------------------
  // The lock monitor
  // ---------------------------------------------------------------------------------------

  /** A leader that is shown somebody else stops leading and stops its workloads before it does
      anything else, and when they have stopped it is known not to lead. */
  lemma SeesAnother(cfg: Config, w: World, id: string)
    requires Valid(cfg, w) && Enabled(cfg, w, React(id))
    requires w.nodes[id].ctl.leader && w.nodes[id].glimpsed.value != id
    ensures var w' := Do(cfg, w, React(id));
            var c := w'.nodes[id].ctl;
            && !c.leader && !c.started && !InTenure(c) && Busy(c.phase)
            && forall now, a :: var c' := Resume(WhoIs(cfg, id), c, now, a); Out(c') && !Busy(c'.phase)
  {
  }

  /** Its own name, or any name to a controller that does not lead, changes nothing. */
  lemma SeesNothingNew(cfg: Config, w: World, id: string)
    requires Valid(cfg, w) && Enabled(cfg, w, React(id))
    requires !w.nodes[id].ctl.leader || w.nodes[id].glimpsed.value == id
    ensures Do(cfg, w, React(id)) == Put(w, id, w.nodes[id].(glimpsed := None))
  {
  }

  /** When somebody else holds the lock, one look and one reaction end a false leadership, whatever
      the controller last heard from the storage itself. */
  lemma MonitorEndsFalseLeadership(cfg: Config, w: World, id: string)
    requires Valid(cfg, w) && id in w.nodes && w.nodes[id].ctl.phase.Idle?
    requires Live(cfg.backend, w.store, Key(cfg, id), w.now) && w.store[Key(cfg, id)].value != id
    ensures var w1 := Do(cfg, w, Glimpse(id));
            && Enabled(cfg, w1, React(id))
            && var w2 := Do(cfg, w1, React(id));
               var c, c' := w.nodes[id].ctl, w2.nodes[id].ctl;
               w2.store == w.store && (if c.leader then !c'.leader && !c'.started else c' == c)
  {
  }
}
