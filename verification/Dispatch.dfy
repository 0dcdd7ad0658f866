/** What becomes of an occurrence that a notification worker picks up and then acts on. */
module Dispatch {
  import opened Options
  import opened Units
  import opened Catalog
  import opened ReportTables
  import opened NotificationSteps
  import opened NotificationWork
  import opened NotificationAnswers
  import opened Pipeline

  /** The occurrence is collecting and due, and no other worker has a lease on it. */
  predicate Due(db: Db, i: nat, now: int) {
    && i < |db.occurrences| && db.occurrences[i].status == Collecting && db.occurrences[i].nextAttempt <= now
    && (db.occurrences[i].claimedBy == None
        || (db.occurrences[i].lease.Some? && db.occurrences[i].lease.value < now))
  }

  /** The recipient could see everything when the work was loaded, and still can. */
  predicate Served(links: seq<Link>, before: Access, now: Access, recipient: RecipientId) {
    && recipient in before.recipients && MaySeeAll(links, before, recipient)
    && recipient in now.recipients && MaySeeAll(links, now, recipient)
  }

  lemma {:induction false} CountWhenComplete(db: Db, links: seq<Link>, access: Access, recipient: RecipientId,
                                             keys: seq<ReportKey>)
    requires forall l | l in links :: l.run in db.runs && db.runs[l.run].status == Succeeded && l.key in keys
    ensures PermissionCount(links, db.runs, access, recipient, keys) <= |links|
    ensures PermissionCount(links, db.runs, access, recipient, keys) == |links| <==> MaySeeAll(links, access, recipient)
  {
    if links != [] {
      var front, l := links[..|links| - 1], links[|links| - 1];
      assert links == front + [l] && l in links;
      CountWhenComplete(db, front, access, recipient, keys);
      assert MaySeeAll(links, access, recipient) <==>
             MaySeeAll(front, access, recipient) && (recipient, l.key) in access.granted;
    }
  }

  lemma EntitledMeans(db: Db, i: nat, access: Access, p: Prepared)
    requires i < |db.occurrences| && p.keys == Keys(db.occurrences[i].links)
    requires forall l | l in db.occurrences[i].links :: l.run in db.runs && db.runs[l.run].status == Succeeded
    ensures Entitled(db, i, access, p) <==>
              p.recipient in access.recipients && MaySeeAll(db.occurrences[i].links, access, p.recipient)
  {
    var links := db.occurrences[i].links;
    forall l | l in links
      ensures l.key in Keys(links)
    {
      var k :| 0 <= k < |links| && links[k] == l;
      assert Keys(links)[k] == l.key;
    }
    CountWhenComplete(db, links, access, p.recipient, p.keys);
  }

  lemma GrantedMeans(access: Access, recipient: RecipientId)
    ensures forall k :: k in GrantedTo(access, recipient) <==> (recipient, k) in access.granted
  {
    forall k | (recipient, k) in access.granted
      ensures k in GrantedTo(access, recipient)
    {
      assert (recipient, k).0 == recipient && (recipient, k).1 == k;
    }
  }

  /** What is inserted: one delivery of all reports for each prepared recipient who still may see them. */
  lemma {:induction false} InsertedMeans(db: Db, i: nat, access: Access, prepared: seq<Prepared>)
    requires i < |db.occurrences|
    requires forall p | p in prepared :: p.keys == Keys(db.occurrences[i].links)
    requires forall l | l in db.occurrences[i].links :: l.run in db.runs && db.runs[l.run].status == Succeeded
    ensures forall d | d in Inserted(db, i, access, prepared) ::
              && d.occurrence == i && d.keys == Keys(db.occurrences[i].links)
              && d.recipient in access.recipients && MaySeeAll(db.occurrences[i].links, access, d.recipient)
              && (exists p | p in prepared :: p.recipient == d.recipient)
              && forall k :: k in d.granted <==> (d.recipient, k) in access.granted
    ensures forall p | p in prepared && p.recipient in access.recipients
                       && MaySeeAll(db.occurrences[i].links, access, p.recipient) ::
              exists d | d in Inserted(db, i, access, prepared) :: d.recipient == p.recipient
  {
    if prepared != [] {
      var front, p := prepared[..|prepared| - 1], prepared[|prepared| - 1];
      assert prepared == front + [p] && p in prepared;
      InsertedMeans(db, i, access, front);
      EntitledMeans(db, i, access, p);
      GrantedMeans(access, p.recipient);
      var first, all := Inserted(db, i, access, front), Inserted(db, i, access, prepared);
      var d := Delivery(i, p.recipient, p.keys, GrantedTo(access, p.recipient));
      assert all == first + if Entitled(db, i, access, p) then [d] else [];
      assert Entitled(db, i, access, p) ==> d in all;
      assert forall x | x in first :: x in all;
      forall q | q in prepared && q.recipient in access.recipients
                 && MaySeeAll(db.occurrences[i].links, access, q.recipient)
        ensures exists x | x in all :: x.recipient == q.recipient
      {
        if q in front {
          var x :| x in first && x.recipient == q.recipient;
        } else {
          assert d in all && d.recipient == q.recipient;
        }
      }
    }
  }

  /** Picked up: the occurrence is leased for a minute, and the desk holds its work. */
  lemma PickMeans(p: Pipe, d: nat, worker: WorkerId, i: nat, access: Access, dashboards: map<RunId, Stamp>, now: int)
    requires DeskOf(p, d).Free? && Due(p.world.db, i, now) && p.world.db.occurrences[i].links != []
    requires AscendingIds(access.recipients)
    ensures var db, after := p.world.db, Picked(p, d, worker, i, access, dashboards, now);
            && after.world.db.runs == db.runs && after.deliveries == p.deliveries
            && |after.world.db.occurrences| == |db.occurrences|
            && after.world.db.occurrences[i] ==
               db.occurrences[i].(claimedBy := Some(worker), lease := Some(now + 60 * SECOND))
            && DeskOf(after, d) == Deciding(WorkOf(after.world.db, i, access, dashboards, now), now)
  {
    var after := NoteClaim(p.world.db, i, worker, MINUTE, now);
    assert Picked(p, d, worker, i, access, dashboards, now).world.db == after;
  }

  ghost predicate AnyAwaited(db: Db, i: nat, now: int)
    requires i < |db.occurrences|
  {
    (exists l | l in db.occurrences[i].links :: Awaited(db, l))
    && !exists l | l in db.occurrences[i].links :: Gone(db, l, now)
  }

  /** The worker's desk holds work on occurrence i that it has just loaded, and its lease runs. */
  ghost predicate AtDesk(p: Pipe, d: nat, worker: WorkerId, i: nat, access: Access, dashboards: map<RunId, Stamp>,
                         now: int) {
    && i < |p.world.db.occurrences| && p.world.db.occurrences[i].status == Collecting
    && p.world.db.occurrences[i].claimedBy == Some(worker) && p.world.db.occurrences[i].lease.Some?
    && now <= p.world.db.occurrences[i].lease.value
    && DeskOf(p, d) == Deciding(WorkOf(p.world.db, i, access, dashboards, now), now)
  }

  /** While reports are awaited and none is gone, the occurrence is put off for five seconds. */
  lemma WaitingIsPutOff(p: Pipe, d: nat, worker: WorkerId, i: nat, access: Access, dashboards: map<RunId, Stamp>,
                        now: int, expected: map<ReportKey, Period>, renders: bool, later: Access)
    requires AtDesk(p, d, worker, i, access, dashboards, now) && AnyAwaited(p.world.db, i, now)
    ensures var after := Acted(p, d, worker, expected, renders, later);
            && after.deliveries == p.deliveries && |after.world.db.occurrences| == |p.world.db.occurrences|
            && after.world.db.occurrences[i] ==
               p.world.db.occurrences[i].(claimedBy := None, lease := None, nextAttempt := now + 5 * SECOND)
            && DeskOf(after, d) == Free
  {
    AnswerOf(p.world.db, i, access, dashboards, now, expected, renders);
    var after := NoteDefer(p.world.db, i, worker, now + 5 * SECOND);
    assert Acted(p, d, worker, expected, renders, later).world.db == after;
  }

  /** Everything has arrived in context, somebody may see it, and every card renders. */
  ghost predicate Sendable(db: Db, i: nat, access: Access, dashboards: map<RunId, Stamp>, now: int,
                           expected: map<ReportKey, Period>, renders: bool)
    requires i < |db.occurrences|
  {
    && Complete(db, db.occurrences[i].links, access, now)
    && InContext(db, db.occurrences[i].links, dashboards, expected) && renders
  }

  /** Neither awaited nor sendable: the occurrence is given up, and nothing is delivered. */
  lemma UnsendableIsClosed(p: Pipe, d: nat, worker: WorkerId, i: nat, access: Access, dashboards: map<RunId, Stamp>,
                           now: int, expected: map<ReportKey, Period>, renders: bool, later: Access)
    requires AtDesk(p, d, worker, i, access, dashboards, now) && !AnyAwaited(p.world.db, i, now)
    requires !Sendable(p.world.db, i, access, dashboards, now, expected, renders)
    ensures var after := Acted(p, d, worker, expected, renders, later);
            && after.deliveries == p.deliveries && |after.world.db.occurrences| == |p.world.db.occurrences|
            && after.world.db.occurrences[i].status == Closed && DeskOf(after, d) == Free
  {
    AnswerOf(p.world.db, i, access, dashboards, now, expected, renders);
    var after := NoteFail(p.world.db, i, worker);
    assert Acted(p, d, worker, expected, renders, later).world.db == after;
  }

  /**
   A sendable occurrence is delivered to exactly the recipients who could see every report when the
   work was loaded and still can: one delivery of all reports each. It is SENDING then, and closed
   when nobody is left.
   */
  lemma SendableIsDelivered(p: Pipe, d: nat, worker: WorkerId, i: nat, access: Access, dashboards: map<RunId, Stamp>,
                            now: int, expected: map<ReportKey, Period>, renders: bool, later: Access)
    requires AtDesk(p, d, worker, i, access, dashboards, now)
    requires Sendable(p.world.db, i, access, dashboards, now, expected, renders)
    ensures var after, links := Acted(p, d, worker, expected, renders, later), p.world.db.occurrences[i].links;
            && p.deliveries <= after.deliveries && |after.world.db.occurrences| == |p.world.db.occurrences|
            && var sent := after.deliveries[|p.deliveries|..];
            && (forall x | x in sent :: x.occurrence == i && x.keys == Keys(links)
                                        && Served(links, access, later, x.recipient)
                                        && forall k :: k in x.granted <==> (x.recipient, k) in later.granted)
            && (forall r | Served(links, access, later, r) :: exists x | x in sent :: x.recipient == r)
            && after.world.db.occurrences[i].status == if sent == [] then Closed else Sending
  {
    var db, links := p.world.db, p.world.db.occurrences[i].links;
    var work := WorkOf(db, i, access, dashboards, now);
    AnswerOf(db, i, access, dashboards, now, expected, renders);
    var prepared := VerdictOn(work, expected, renders).prepared;
    var inserted := Inserted(db, i, later, prepared);
    InsertedMeans(db, i, later, prepared);
    var after := NotePublish(db, i, worker, |inserted|, now);
    assert Acted(p, d, worker, expected, renders, later) ==
           Released(p, d, after).(deliveries := p.deliveries + inserted);
    assert (p.deliveries + inserted)[|p.deliveries|..] == inserted;
    forall r | Served(links, access, later, r)
      ensures exists x | x in inserted :: x.recipient == r
    {
      assert Prepared(r, Keys(links)) in prepared;
    }
  }
}
