/**
 When a run can still finish: exactly as long as no buffered request is contradicted by a
 report, and a root frame contradicts one exactly when a public ID of its own requests
 is one of the buffered ones.
 */
module InterruptFinish {
  import opened ByteFormats
  import opened InterruptRuns
  import opened Interrupts
  import opened Options

  // ---- Buffered requests are what they were projected to ---------------------

  ghost predicate IsPublicOf(p: Public, n: Native, k: nat) {
    p.id == PublicId(n, k) && p.body.value == n.value && p.body.native == if n.value.Other? then None else Some((n.id, k))
  }

  ghost predicate GroupOf(n: Native, group: seq<Public>) {
    |group| == n.Size() && forall k | 0 <= k < |group| :: IsPublicOf(group[k], n, k)
  }

  ghost predicate GroupsOf(natives: seq<Native>, groups: seq<seq<Public>>) {
    |groups| == |natives| && forall i | 0 <= i < |natives| :: GroupOf(natives[i], groups[i])
  }

  ghost predicate Faithful(b: Book) {
    forall id | id in b.interrupts :: GroupOf(Native(id, b.interrupts[id].value), b.interrupts[id].prepared)
  }

  lemma GroupsMore(n: Native, group: seq<Public>, natives: seq<Native>, rest: seq<Public>)
    requires GroupOf(n, group) && Grouped(natives, rest).Some? && GroupsOf(natives, Grouped(natives, rest).value)
    ensures Grouped([n] + natives, group + rest).Some? && GroupsOf([n] + natives, Grouped([n] + natives, group + rest).value)
  {
    var all := [n] + natives;
    assert all[0] == n && all[1..] == natives;
    assert (group + rest)[..n.Size()] == group && (group + rest)[n.Size()..] == rest;
    hide Grouped, GroupOf;
    GroupedStep(all, group + rest);
  }

  lemma GroupedStep(natives: seq<Native>, prepared: seq<Public>)
    requires natives != [] && |prepared| >= natives[0].Size()
    requires Grouped(natives[1..], prepared[natives[0].Size()..]).Some?
    ensures Grouped(natives, prepared) ==
            Some([prepared[..natives[0].Size()]] + Grouped(natives[1..], prepared[natives[0].Size()..]).value)
  {
  }

  /** Grouping the projection gives each native request its own public ones back. */
  lemma {:induction false} ProjectAllGroups(natives: seq<Native>, source: string, calls: seq<seq<string>>)
    requires ProjectAll(natives, source, calls).Some?
    ensures var prepared := ProjectAll(natives, source, calls).value;
            Grouped(natives, prepared).Some? && GroupsOf(natives, Grouped(natives, prepared).value)
    decreases |natives|
  {
    if natives != [] {
      var n := natives[0];
      var group := ProjectOne(n, source, if n.value.Review? then calls[0] else []);
      assert GroupOf(n, group);
      var more := if n.value.Review? then calls[1..] else calls;
      ProjectAllGroups(natives[1..], source, more);
      GroupsMore(n, group, natives[1..], ProjectAll(natives[1..], source, more).value);
      assert natives == [n] + natives[1..];
      hide Grouped, GroupsOf;
    }
  }

  ghost predicate SameKnown(a: map<string, Buffered>, c: map<string, Buffered>, natives: seq<Native>) {
    forall i | 0 <= i < |natives| :: natives[i].id in a <==> natives[i].id in c
  }

  lemma {:induction false} NewOnesStay(a: Book, c: Book, natives: seq<Native>)
    requires SameKnown(a.interrupts, c.interrupts, natives)
    ensures NewOnes(a, natives) == NewOnes(c, natives)
    decreases |natives|
  {
    if natives != [] { NewOnesStay(a, c, natives[1..]); }
  }

  /** Placing a known request elsewhere does not change what was prepared for it. */
  ghost predicate KeepsPrepared(before: map<string, Buffered>, after: map<string, Buffered>) {
    forall id | id in before :: id in after && after[id].value == before[id].value && after[id].prepared == before[id].prepared
  }

  /** An entry is placed once more, or added with the next group. */
  function EntryFor(b: Book, ns: Namespace, n: Native, groups: seq<seq<Public>>): Buffered
    requires n.id !in b.interrupts ==> groups != []
  {
    if n.id !in b.interrupts then Buffered(n.id, n.value, groups[0], [ns])
    else if ns in b.interrupts[n.id].namespaces then b.interrupts[n.id]
    else b.interrupts[n.id].(namespaces := b.interrupts[n.id].namespaces + [ns])
  }

  lemma OneStep(b: Book, order: seq<string>, ns: Namespace, natives: seq<Native>, groups: seq<seq<Public>>)
    requires natives != [] && (natives[0].id !in b.interrupts ==> groups != [])
    ensures var n := natives[0];
            var known := n.id in b.interrupts;
            Staged(b.interrupts, order, ns, natives, groups) ==
            Staged(b.interrupts[n.id := EntryFor(b, ns, n, groups)], if known then order else order + [n.id], ns, natives[1..],
                   if known then groups else groups[1..])
  {
  }

  lemma EntryIsFaithful(b: Book, ns: Namespace, n: Native, groups: seq<seq<Public>>)
    requires Faithful(b) && (n.id !in b.interrupts ==> groups != [] && GroupOf(n, groups[0]))
    ensures var next := b.interrupts[n.id := EntryFor(b, ns, n, groups)];
            Faithful(b.(interrupts := next)) && KeepsPrepared(b.interrupts, next)
  {
    assert Native(n.id, n.value) == n;
  }

  lemma KeepsTwice(a: map<string, Buffered>, c: map<string, Buffered>, d: map<string, Buffered>)
    requires KeepsPrepared(a, c) && KeepsPrepared(c, d)
    ensures KeepsPrepared(a, d)
  {
  }

  lemma NewOnesStep(b: Book, natives: seq<Native>)
    requires natives != []
    ensures NewOnes(b, natives) == (if natives[0].id in b.interrupts then [] else [natives[0]]) + NewOnes(b, natives[1..])
  {
  }

  lemma GroupsTail(n: Native, more: seq<Native>, groups: seq<seq<Public>>)
    requires GroupsOf([n] + more, groups)
    ensures groups != [] && GroupOf(n, groups[0]) && GroupsOf(more, groups[1..])
  {
    assert ([n] + more)[0] == n && forall j | 0 <= j < |more| :: ([n] + more)[j + 1] == more[j];
    hide GroupOf;
  }

  lemma FirstGroup(b: Book, natives: seq<Native>, groups: seq<seq<Public>>)
    requires natives != [] && GroupsOf(NewOnes(b, natives), groups)
    ensures natives[0].id !in b.interrupts ==> groups != [] && GroupOf(natives[0], groups[0])
  {
    hide *;
    NewOnesStep(b, natives);
    if natives[0].id !in b.interrupts { GroupsTail(natives[0], NewOnes(b, natives[1..]), groups); }
  }

  lemma NextGroups(b: Book, next: Book, natives: seq<Native>, groups: seq<seq<Public>>)
    requires natives != [] && GroupsOf(NewOnes(b, natives), groups) && SameKnown(b.interrupts, next.interrupts, natives[1..])
    ensures natives[0].id in b.interrupts ==> GroupsOf(NewOnes(next, natives[1..]), groups)
    ensures natives[0].id !in b.interrupts ==> groups != [] && GroupsOf(NewOnes(next, natives[1..]), groups[1..])
  {
    hide *;
    NewOnesStay(b, next, natives[1..]);
    NewOnesStep(b, natives);
    var more := NewOnes(b, natives[1..]);
    assert [] + more == more;
    if natives[0].id !in b.interrupts { GroupsTail(natives[0], more, groups); }
  }

  lemma {:induction false} StagedIsFaithful(b: Book, order: seq<string>, ns: Namespace, natives: seq<Native>, groups: seq<seq<Public>>)
    requires Faithful(b) && DistinctIds(natives) && GroupsOf(NewOnes(b, natives), groups)
    ensures var after := Staged(b.interrupts, order, ns, natives, groups).0;
            Faithful(b.(interrupts := after)) && KeepsPrepared(b.interrupts, after)
    decreases |natives|
  {
    if natives != [] {
      var n, rest := natives[0], natives[1..];
      var known := n.id in b.interrupts;
      FirstGroup(b, natives, groups);
      hide *;
      var entry := EntryFor(b, ns, n, groups);
      var next := b.(interrupts := b.interrupts[n.id := entry]);
      OneStep(b, order, ns, natives, groups);
      EntryIsFaithful(b, ns, n, groups);
      DistinctRest(natives);
      OthersKnown(b.interrupts, entry, n, rest);
      NextGroups(b, next, natives, groups);
      StagedIsFaithful(next, if known then order else order + [n.id], ns, rest, if known then groups else groups[1..]);
      KeepsTwice(b.interrupts, next.interrupts, Staged(b.interrupts, order, ns, natives, groups).0);
    }
  }

  lemma DistinctRest(natives: seq<Native>)
    requires natives != [] && DistinctIds(natives)
    ensures DistinctIds(natives[1..]) && forall i | 0 <= i < |natives[1..]| :: natives[1..][i].id != natives[0].id
  {
  }

  lemma OthersKnown(interrupts: map<string, Buffered>, entry: Buffered, n: Native, rest: seq<Native>)
    requires forall i | 0 <= i < |rest| :: rest[i].id != n.id
    ensures SameKnown(interrupts, interrupts[n.id := entry], rest)
  {
  }

  lemma FrameKeepsFaithful(b: Book, frame: Frame)
    requires Ok(b) && Faithful(b)
    ensures Faithful(Next(b, frame))
  {
    hide Ok, Faithful;
    if frame.Child? && Accept(b, frame).Some? && frame.natives != [] {
      var projected := Projection(NewOnes(b, frame.natives), frame.source, frame.calls);
      ProjectAllGroups(NewOnes(b, frame.natives), frame.source, frame.calls.GetOr([]));
      var groups := Grouped(NewOnes(b, frame.natives), projected.value).value;
      StagedIsFaithful(b, b.order, frame.ns, frame.natives, groups);
      SameInterruptsFaithful(b.(interrupts := Staged(b.interrupts, b.order, frame.ns, frame.natives, groups).0), Next(b, frame));
    } else {
      SameInterruptsFaithful(b, Next(b, frame));
    }
  }

  lemma SameInterruptsFaithful(a: Book, c: Book)
    requires Faithful(a) && c.interrupts == a.interrupts
    ensures Faithful(c)
  {
  }

  /** Public requests of different native requests differ, even under one ID. */
  lemma OthersDiffer(p: Public, m: Native, j: nat, q: Public, n: Native, k: nat)
    requires IsPublicOf(p, m, j) && IsPublicOf(q, n, k) && m.id != n.id
    ensures p != q
  {
    if m.value.Other? && n.value.Other? { assert p.id == m.id && q.id == n.id; }
  }

  // ---- Contradictions --------------------------------------------------------

  /** The public request `p` of the buffered request `id` contradicts one that was reported. */
  ghost predicate Contradicted(b: Book, id: string, p: Public) {
    id in b.interrupts && p in b.interrupts[id].prepared && p.id in b.recorded && b.recorded[p.id] != p
  }

  ghost predicate Agreeing(b: Book) {
    forall id, p :: !Contradicted(b, id, p)
  }

  /** A request that is not buffered has a public ID of a buffered one; both IDs can be read off the requests. */
  ghost predicate Collides(b: Book, natives: seq<Native>) {
    exists i, k, id, j ::
      && 0 <= i < |natives| && natives[i].id !in b.interrupts && 0 <= k < natives[i].Size()
      && id in b.interrupts && 0 <= j < Native(id, b.interrupts[id].value).Size()
      && PublicId(natives[i], k) == PublicId(Native(id, b.interrupts[id].value), j)
  }

  lemma {:induction false} PreparedContains(interrupts: map<string, Buffered>, order: seq<string>, id: string, p: Public)
    requires id in order && id in interrupts && p in interrupts[id].prepared
    ensures p in Prepared(interrupts, order)
    decreases |order|
  {
    if order[0] != id { PreparedContains(interrupts, order[1..], id, p); }
  }

  lemma SameIdSamePublic(b: Book, id: string, p: Public, other: string, q: Public)
    requires Ok(b) && id in b.interrupts && p in b.interrupts[id].prepared
    requires other in b.interrupts && q in b.interrupts[other].prepared && p.id == q.id
    ensures p == q
  {
    PreparedContains(b.interrupts, b.order, id, p);
    PreparedContains(b.interrupts, b.order, other, q);
    var all := Prepared(b.interrupts, b.order);
    var i :| 0 <= i < |all| && all[i] == p;
    var j :| 0 <= j < |all| && all[j] == q;
    UniqueAt(all, i, j);
  }

  /** Every public request of a new native one is reported. */
  lemma {:induction false} NewIsReported(b: Book, natives: seq<Native>, groups: seq<seq<Public>>, i: nat, k: nat) returns (q: Public)
    requires GroupsOf(NewOnes(b, natives), groups)
    requires i < |natives| && natives[i].id !in b.interrupts && k < natives[i].Size()
    ensures q in Report(b, natives, groups) && IsPublicOf(q, natives[i], k)
    decreases |natives|
  {
    if natives[0].id in b.interrupts {
      q := NewIsReported(b, natives[1..], groups, i - 1, k);
    } else {
      var more := NewOnes(b, natives[1..]);
      NewOnesStep(b, natives);
      GroupsTail(natives[0], more, groups);
      if i == 0 {
        q := groups[0][k];
      } else {
        q := NewIsReported(b, natives[1..], groups[1..], i - 1, k);
      }
    }
  }

  /** Where a reported request comes from. */
  ghost predicate FromNew(b: Book, natives: seq<Native>, q: Public) {
    exists i, k :: 0 <= i < |natives| && natives[i].id !in b.interrupts && 0 <= k < natives[i].Size() && IsPublicOf(q, natives[i], k)
  }

  ghost predicate FromBuffer(b: Book, q: Public) { exists id :: id in b.interrupts && q in b.interrupts[id].prepared }

  lemma {:induction false} ReportComesFrom(b: Book, natives: seq<Native>, groups: seq<seq<Public>>, q: Public)
    requires GroupsOf(NewOnes(b, natives), groups) && q in Report(b, natives, groups)
    ensures FromNew(b, natives, q) || FromBuffer(b, q)
    decreases |natives|
  {
    if natives[0].id in b.interrupts {
      if q !in b.interrupts[natives[0].id].prepared {
        ReportComesFrom(b, natives[1..], groups, q);
        FromNewMore(b, natives, q);
      }
    } else {
      var more := NewOnes(b, natives[1..]);
      NewOnesStep(b, natives);
      GroupsTail(natives[0], more, groups);
      assert GroupOf(natives[0], groups[0]);
      if q in groups[0] {
        var k :| 0 <= k < |groups[0]| && groups[0][k] == q;
        assert IsPublicOf(q, natives[0], k);
      } else {
        ReportComesFrom(b, natives[1..], groups[1..], q);
        FromNewMore(b, natives, q);
      }
    }
  }

  lemma FromNewMore(b: Book, natives: seq<Native>, q: Public)
    requires natives != []
    ensures FromNew(b, natives[1..], q) ==> FromNew(b, natives, q)
  {
    if FromNew(b, natives[1..], q) {
      var i, k :| 0 <= i < |natives| - 1 && natives[1..][i].id !in b.interrupts && 0 <= k < natives[1..][i].Size()
                  && IsPublicOf(q, natives[1..][i], k);
      assert natives[i + 1] == natives[1..][i];
    }
  }

  // ---- Root frames -----------------------------------------------------------

  /** The groups of an accepted root frame, and what becomes of its report. */
  lemma RootReports(b: Book, natives: seq<Native>, source: string, calls: Option<seq<seq<string>>>) returns (groups: seq<seq<Public>>)
    requires Ok(b) && Accept(b, Root(natives, source, calls)).Some?
    ensures GroupsOf(NewOnes(b, natives), groups)
    ensures var after := Next(b, Root(natives, source, calls));
            && after.interrupts == b.interrupts
            && (forall q | q in Report(b, natives, groups) :: RecordedAs(after.recorded, q))
            && (forall id | id in after.recorded && id !in b.recorded :: after.recorded[id] in Report(b, natives, groups) && after.recorded[id].id == id)
            && (forall id | id in b.recorded :: id in after.recorded && after.recorded[id] == b.recorded[id])
  {
    var projected := Projection(NewOnes(b, natives), source, calls);
    ProjectAllGroups(NewOnes(b, natives), source, calls.GetOr([]));
    groups := Grouped(NewOnes(b, natives), projected.value).value;
    hide Grouped, Projection, ProjectAll, Report, NewOnes, GroupsOf;
    var report := Report(b, natives, groups);
    assert RootReport(b, natives, projected) == Some(report);
    hide RootReport, Repeatable;
    RecordKeeps(b.recorded, b.reported, report);
    RecordOnly(b.recorded, b.reported, report);
  }

  /** A root frame leaves reports and buffer in agreement exactly when no public ID of its new requests is a buffered one. */
  lemma RootKeepsAgreementIff(b: Book, natives: seq<Native>, source: string, calls: Option<seq<seq<string>>>)
    requires Ok(b) && Faithful(b) && Agreeing(b) && Accept(b, Root(natives, source, calls)).Some?
    ensures Agreeing(Next(b, Root(natives, source, calls))) <==> !Collides(b, natives)
  {
    var after := Next(b, Root(natives, source, calls));
    var groups := RootReports(b, natives, source, calls);
    hide Accept, Next, Report, NewOnes, Ok, GroupsOf;
    if Collides(b, natives) {
      CollisionContradicts(b, after, natives, groups);
    } else {
      forall id, p ensures !Contradicted(after, id, p) {
        if Contradicted(after, id, p) { ContradictionCollides(b, after, natives, groups, id, p); }
      }
    }
  }

  lemma CollisionContradicts(b: Book, after: Book, natives: seq<Native>, groups: seq<seq<Public>>)
    requires Faithful(b) && GroupsOf(NewOnes(b, natives), groups) && after.interrupts == b.interrupts && Collides(b, natives)
    requires forall q | q in Report(b, natives, groups) :: RecordedAs(after.recorded, q)
    ensures !Agreeing(after)
  {
    var i, k, id, j :| 0 <= i < |natives| && natives[i].id !in b.interrupts && 0 <= k < natives[i].Size()
      && id in b.interrupts && 0 <= j < Native(id, b.interrupts[id].value).Size()
      && PublicId(natives[i], k) == PublicId(Native(id, b.interrupts[id].value), j);
    var q := NewIsReported(b, natives, groups, i, k);
    var n := Native(id, b.interrupts[id].value);
    assert GroupOf(n, b.interrupts[id].prepared);
    var p := b.interrupts[id].prepared[j];
    OthersDiffer(p, n, j, q, natives[i], k);
    assert RecordedAs(after.recorded, q);
    assert Contradicted(after, id, p);
  }

  lemma ContradictionCollides(b: Book, after: Book, natives: seq<Native>, groups: seq<seq<Public>>, id: string, p: Public)
    requires Ok(b) && Faithful(b) && Agreeing(b) && GroupsOf(NewOnes(b, natives), groups) && after.interrupts == b.interrupts
    requires forall id | id in after.recorded && id !in b.recorded :: after.recorded[id] in Report(b, natives, groups) && after.recorded[id].id == id
    requires forall id | id in b.recorded :: id in after.recorded && after.recorded[id] == b.recorded[id]
    requires Contradicted(after, id, p)
    ensures Collides(b, natives)
  {
    hide Report, NewOnes, Ok, GroupsOf;
    assert !Contradicted(b, id, p);
    var q := after.recorded[p.id];
    ReportComesFrom(b, natives, groups, q);
    var n := Native(id, b.interrupts[id].value);
    assert GroupOf(n, b.interrupts[id].prepared);
    var j :| 0 <= j < |b.interrupts[id].prepared| && b.interrupts[id].prepared[j] == p;
    assert IsPublicOf(p, n, j);
    if FromBuffer(b, q) {
      var other :| other in b.interrupts && q in b.interrupts[other].prepared;
      SameIdSamePublic(b, id, p, other, q);
    } else {
      var i, k :| 0 <= i < |natives| && natives[i].id !in b.interrupts && 0 <= k < natives[i].Size() && IsPublicOf(q, natives[i], k);
      assert PublicId(natives[i], k) == PublicId(n, j);
    }
  }

  lemma {:induction false} RecordOnly(recorded: map<string, Public>, reported: seq<Public>, prepared: seq<Public>)
    ensures forall id | id in Record(recorded, reported, prepared).0 && id !in recorded ::
      Record(recorded, reported, prepared).0[id] in prepared && Record(recorded, reported, prepared).0[id].id == id
    decreases |prepared|
  {
    if prepared != [] {
      var p := prepared[0];
      RecordOnly(recorded, reported, prepared[1..]);
      RecordOnly(recorded[p.id := p], reported + [p], prepared[1..]);
      RecordKeepsOld(recorded[p.id := p], reported + [p], prepared[1..]);
      assert prepared == [p] + prepared[1..];
    }
  }

  lemma {:induction false} RecordKeepsOld(recorded: map<string, Public>, reported: seq<Public>, prepared: seq<Public>)
    ensures forall id | id in recorded :: id in Record(recorded, reported, prepared).0 && Record(recorded, reported, prepared).0[id] == recorded[id]
    decreases |prepared|
  {
    if prepared != [] {
      RecordKeepsOld(recorded, reported, prepared[1..]);
      if prepared[0].id !in recorded {
        RecordKeepsOld(recorded[prepared[0].id := prepared[0]], reported + [prepared[0]], prepared[1..]);
      }
    }
  }

  // ---- Child frames ----------------------------------------------------------

  /** An accepted child frame leaves everything in agreement. */
  lemma ChildAgrees(b: Book, frame: Frame)
    requires Ok(b) && frame.Child? && Accept(b, frame).Some? && frame.natives != []
    ensures Agreeing(Next(b, frame))
  {
    var after := Next(b, frame);
    FrameKeepsOk(b, frame);
    assert Publishable(Prepared(after.interrupts, after.order), after.recorded);
    assert Ordered(after.interrupts, after.order);
    hide Accept, Next, Ok;
    forall id, p ensures !Contradicted(after, id, p) {
      if id in after.interrupts && p in after.interrupts[id].prepared {
        PreparedContains(after.interrupts, after.order, id, p);
      }
    }
  }

  // ---- Runs ------------------------------------------------------------------

  /** No accepted root frame brings a request of its own under a buffered public ID. */
  ghost predicate NoCollisions(b: Book, frames: seq<Frame>)
    decreases |frames|
  {
    frames == [] ||
    ((frames[0].Root? && Accept(b, frames[0]).Some? ==> !Collides(b, frames[0].natives)) && NoCollisions(Next(b, frames[0]), frames[1..]))
  }

  lemma ContradictionStays(b: Book, frame: Frame, id: string, p: Public)
    requires Ok(b) && Contradicted(b, id, p)
    ensures Contradicted(Next(b, frame), id, p)
    ensures id !in Next(b, frame).resolved
  {
    FrameExtends(b, frame, id);
    FrameKeepsOk(b, frame);
    assert Contradicted(Next(b, frame), id, p);
    assert ResolvedOk(Next(b, frame));
  }

  /** Once a buffered request is contradicted, no later frame can resolve it and the run never finishes. */
  lemma {:induction false} ContradictionBlocksFinish(b: Book, frames: seq<Frame>, id: string, p: Public)
    requires Ok(b) && Contradicted(b, id, p)
    ensures Contradicted(RunAll(b, frames), id, p) && !CanFinish(RunAll(b, frames))
    decreases |frames|
  {
    if frames == [] {
      assert ResolvedOk(b);
    } else {
      ContradictionStays(b, frames[0], id, p);
      FrameKeepsOk(b, frames[0]);
      hide Ok, Next, Contradicted, CanFinish;
      ContradictionBlocksFinish(Next(b, frames[0]), frames[1..], id, p);
    }
  }

  lemma FrameAgreesIff(b: Book, frame: Frame)
    requires Ok(b) && Faithful(b) && Agreeing(b)
    ensures Agreeing(Next(b, frame)) <==> !(frame.Root? && Accept(b, frame).Some? && Collides(b, frame.natives))
  {
    if Accept(b, frame).Some? {
      if frame.Root? {
        RootKeepsAgreementIff(b, frame.natives, frame.source, frame.calls);
      } else if frame.natives != [] {
        ChildAgrees(b, frame);
      }
    }
    hide Collides, Agreeing, Ok;
  }

  /** Over every run reports and buffer agree exactly when no accepted root frame ever collided with the buffer. */
  lemma {:induction false} EveryRunAgreesIff(b: Book, frames: seq<Frame>)
    requires Ok(b) && Faithful(b) && Agreeing(b)
    ensures Agreeing(RunAll(b, frames)) <==> NoCollisions(b, frames)
    decreases |frames|
  {
    if frames != [] {
      var next := Next(b, frames[0]);
      FrameAgreesIff(b, frames[0]);
      FrameKeepsOk(b, frames[0]);
      FrameKeepsFaithful(b, frames[0]);
      hide Ok, Faithful, Collides, Next, Accept;
      if Agreeing(next) {
        EveryRunAgreesIff(next, frames[1..]);
      } else {
        var id, p :| Contradicted(next, id, p);
        ContradictionBlocksFinish(next, frames[1..], id, p);
      }
    }
  }

  // ---- Finishing -------------------------------------------------------------

  /** The root repeats every buffered request. */
  function RepeatAll(b: Book): Frame
    requires forall id | id in b.order :: id in b.interrupts
  {
    Root(seq(|b.order|, i requires 0 <= i < |b.order| => Native(b.order[i], b.interrupts[b.order[i]].value)), "", None)
  }

  ghost predicate CanStillFinish(b: Book) { exists frames :: CanFinish(RunAll(b, frames)) }

  lemma {:induction false} NothingIsNew(b: Book, natives: seq<Native>)
    requires forall i | 0 <= i < |natives| :: natives[i].id in b.interrupts
    ensures NewOnes(b, natives) == []
    decreases |natives|
  {
    if natives != [] { NothingIsNew(b, natives[1..]); }
  }

  lemma {:induction false} ReportIsPrepared(b: Book, natives: seq<Native>, order: seq<string>)
    requires |natives| == |order| && forall i | 0 <= i < |natives| :: natives[i].id == order[i] && order[i] in b.interrupts
    ensures Report(b, natives, []) == Prepared(b.interrupts, order)
    decreases |natives|
  {
    if natives != [] { ReportIsPrepared(b, natives[1..], order[1..]); }
  }

  lemma RepeatIsReported(b: Book, natives: seq<Native>)
    requires Ok(b) && Agreeing(b) && |natives| == |b.order|
    requires forall i | 0 <= i < |natives| ::
               natives[i].id == b.order[i] && b.order[i] in b.interrupts && natives[i].value == b.interrupts[b.order[i]].value
    ensures NewOnes(b, natives) == [] && RootReport(b, natives, Some([])) == Some(Prepared(b.interrupts, b.order))
  {
    NothingIsNew(b, natives);
    ReportIsPrepared(b, natives, b.order);
    PreparedAgrees(b);
    assert Repeatable(b, natives);
    hide Ok, Repeatable, Prepared, Report, NewOnes;
  }

  lemma RepeatPropagates(b: Book, natives: seq<Native>)
    requires Ordered(b.interrupts, b.order) && |natives| == |b.order|
    requires forall i | 0 <= i < |natives| :: natives[i].id == b.order[i] && b.order[i] in b.interrupts
    ensures b.interrupts.Keys <= Propagated(b, natives)
  {
    forall id | id in b.interrupts ensures id in Propagated(b, natives) {
      var i :| 0 <= i < |b.order| && b.order[i] == id;
      assert natives[i].id == id;
    }
  }

  /** In agreement, repeating everything at the root is accepted and resolves everything. */
  lemma RepeatingResolves(b: Book)
    requires Ok(b) && Faithful(b) && Agreeing(b)
    ensures (forall id | id in b.order :: id in b.interrupts) && CanFinish(Next(b, RepeatAll(b)))
  {
    assert Ordered(b.interrupts, b.order);
    var natives := RepeatAll(b).natives;
    RepeatIsReported(b, natives);
    RepeatPropagates(b, natives);
    PreparedNotEmpty(b);
    assert Projection([], "", None) == Some([]);
    RepeatFinishes(b, natives);
  }

  lemma RepeatFinishes(b: Book, natives: seq<Native>)
    requires Projection([], "", None) == Some([]) && NewOnes(b, natives) == []
    requires RootReport(b, natives, Some([])) == Some(Prepared(b.interrupts, b.order))
    requires b.interrupts.Keys <= Propagated(b, natives)
    requires b.interrupts.Keys == {} || Prepared(b.interrupts, b.order) != []
    ensures CanFinish(Next(b, Root(natives, "", None)))
  {
    hide Record, Prepared, RootReport, Projection, Propagated, NewOnes;
  }

  lemma PreparedAgrees(b: Book)
    requires Ok(b) && Agreeing(b)
    ensures Publishable(Prepared(b.interrupts, b.order), b.recorded)
  {
    var prepared := Prepared(b.interrupts, b.order);
    forall i | 0 <= i < |prepared| && prepared[i].id in b.recorded ensures b.recorded[prepared[i].id] == prepared[i] {
      var id := PreparedFrom(b.interrupts, b.order, prepared[i]);
      assert !Contradicted(b, id, prepared[i]);
    }
  }

  lemma {:induction false} PreparedFrom(interrupts: map<string, Buffered>, order: seq<string>, p: Public) returns (id: string)
    requires p in Prepared(interrupts, order)
    ensures id in interrupts && p in interrupts[id].prepared
    decreases |order|
  {
    if order[0] in interrupts && p in interrupts[order[0]].prepared {
      id := order[0];
    } else {
      id := PreparedFrom(interrupts, order[1..], p);
    }
  }

  lemma PreparedNotEmpty(b: Book)
    requires Ok(b) && Faithful(b)
    ensures b.interrupts.Keys == {} || Prepared(b.interrupts, b.order) != []
  {
    if id :| id in b.interrupts {
      assert GroupOf(Native(id, b.interrupts[id].value), b.interrupts[id].prepared);
      PreparedContains(b.interrupts, b.order, id, b.interrupts[id].prepared[0]);
    }
  }

  /** A run can still finish exactly when no buffered request is contradicted. */
  lemma FinishableIff(b: Book)
    requires Ok(b) && Faithful(b)
    ensures CanStillFinish(b) <==> Agreeing(b)
  {
    if Agreeing(b) {
      RepeatingResolves(b);
      hide Ok, Faithful, Next, CanFinish;
      var frames := [RepeatAll(b)];
      assert RunAll(Next(b, frames[0]), frames[1..]) == Next(b, frames[0]);
      assert CanFinish(RunAll(b, frames));
    } else {
      var id, p :| Contradicted(b, id, p);
      hide Ok, Faithful, Contradicted, CanFinish, RunAll;
      forall frames ensures !CanFinish(RunAll(b, frames)) { ContradictionBlocksFinish(b, frames, id, p); }
    }
  }

  /** Both results together, for the whole run of a new adapter. */
  lemma RunsFinishIff(frames: seq<Frame>)
    ensures CanStillFinish(RunAll(Empty(), frames)) <==> NoCollisions(Empty(), frames)
  {
    EmptyIsOk();
    assert Faithful(Empty()) && Agreeing(Empty());
    EveryRunKeepsOk(Empty(), frames);
    EveryRunKeepsFaithful(Empty(), frames);
    EveryRunAgreesIff(Empty(), frames);
    FinishableIff(RunAll(Empty(), frames));
    hide *;
  }

  lemma {:induction false} EveryRunKeepsFaithful(b: Book, frames: seq<Frame>)
    requires Ok(b) && Faithful(b)
    ensures Faithful(RunAll(b, frames))
    decreases |frames|
  {
    if frames != [] {
      FrameKeepsOk(b, frames[0]);
      FrameKeepsFaithful(b, frames[0]);
      hide Ok, Faithful, Next;
      EveryRunKeepsFaithful(Next(b, frames[0]), frames[1..]);
    }
  }

  // ---- A run that cannot finish ----------------------------------------------

  /** A review of two actions, and a question of the root named like its first action. */
  const Reviewed: Native := Native("x", Review(["write", "send"]))
  const Asked: Native := Native("x#0", Other("continue?"))

  const ReviewFrame: Frame := Child(["agent"], [Reviewed], "agent", Some([["call-1", "call-2"]]), [])
  const QuestionFrame: Frame := Root([Asked], "root", None)

  lemma OneReviewProjected(n: Native, source: string, calls: seq<string>)
    requires n.value.Review? && |calls| == n.Size() && forall i, j | 0 <= i < j < |calls| :: calls[i] != calls[j]
    ensures Projection([n], source, Some([calls])) == Some(ProjectOne(n, source, calls))
  {
    hide ProjectOne;
    var natives, found := [n], [calls];
    assert natives[0].value.Review? && natives[1..] == [];
    assert ProjectAll(natives[1..], source, found[1..]) == Some([]);
    assert ProjectOne(n, source, calls) + [] == ProjectOne(n, source, calls);
    assert ProjectAll(natives, source, found) == Some(ProjectOne(n, source, calls));
  }

  lemma OneQuestionProjected(n: Native, source: string)
    requires n.value.Other?
    ensures Projection([n], source, None) == Some(ProjectOne(n, source, []))
  {
    hide ProjectOne;
    var natives := [n];
    assert natives[1..] == [];
    assert ProjectAll(natives[1..], source, []) == Some([]);
    assert ProjectOne(n, source, []) + [] == ProjectOne(n, source, []);
    assert ProjectAll(natives, source, []) == Some(ProjectOne(n, source, []));
  }

  lemma OneGrouped(n: Native, publics: seq<Public>)
    requires |publics| == n.Size()
    ensures Grouped([n], publics) == Some([publics])
  {
    var natives := [n];
    assert natives[1..] == [] && publics[..n.Size()] == publics && publics[n.Size()..] == [];
    assert Grouped(natives[1..], publics[n.Size()..]) == Some([]);
    GroupedStep(natives, publics);
    var groups: seq<seq<Public>> := [publics];
    assert groups + [] == groups;
  }

  lemma OneStaged(n: Native, ns: Namespace, publics: seq<Public>)
    ensures Staged(map[], [], ns, [n], [publics]) == (map[n.id := Buffered(n.id, n.value, publics, [ns])], [n.id])
  {
    var natives, groups := [n], [publics];
    OneStep(Empty(), [], ns, natives, groups);
    assert natives[1..] == [] && [] + [n.id] == [n.id];
    assert Staged(map[n.id := Buffered(n.id, n.value, publics, [ns])], [n.id], ns, natives[1..], groups[1..]) ==
           (map[n.id := Buffered(n.id, n.value, publics, [ns])], [n.id]);
  }

  lemma OneIsNew(b: Book, n: Native)
    requires n.id !in b.interrupts
    ensures NewOnes(b, [n]) == [n]
  {
    var natives := [n];
    assert natives[1..] == [] && NewOnes(b, natives[1..]) == [];
  }

  lemma ReviewIsProjected()
    ensures Projection([Reviewed], "agent", Some([["call-1", "call-2"]])) ==
            Some([PublicOf(Reviewed, 0, Some("call-1"), "agent"), PublicOf(Reviewed, 1, Some("call-2"), "agent")])
    ensures PublicId(Reviewed, 0) == "x#0" && PublicId(Reviewed, 1) == "x#1"
  {
    var calls := ["call-1", "call-2"];
    assert calls[0][5] != calls[1][5];
    OneReviewProjected(Reviewed, "agent", calls);
    assert ProjectOne(Reviewed, "agent", calls) ==
           [PublicOf(Reviewed, 0, Some("call-1"), "agent"), PublicOf(Reviewed, 1, Some("call-2"), "agent")];
    assert Decimal(0) == "0" && Decimal(1) == "1";
  }

  lemma ReviewIsBuffered()
    ensures Accept(Empty(), ReviewFrame).Some?
    ensures var b := Next(Empty(), ReviewFrame);
            "x" in b.interrupts && b.interrupts["x"].value == Reviewed.value && "x#0" !in b.interrupts && b.recorded == map[]
  {
    var b := Empty();
    var projected := Projection([Reviewed], "agent", Some([["call-1", "call-2"]]));
    ReviewIsProjected();
    var publics := projected.value;
    OneIsNew(b, Reviewed);
    OneGrouped(Reviewed, publics);
    OneStaged(Reviewed, ["agent"], publics);
    hide Projection, PublicId, NewOnes, Grouped;
    var interrupts, order := map["x" := Buffered("x", Reviewed.value, publics, [["agent"]])], ["x"];
    assert Staged(b.interrupts, b.order, ["agent"], [Reviewed], [publics]) == (interrupts, order);
    assert Prepared(interrupts, order) == publics by {
      assert order[1..] == [] && Prepared(interrupts, order[1..]) == [] && publics + [] == publics;
    }
    assert Publishable(publics, b.recorded) by { assert publics[0].id[2] != publics[1].id[2]; }
    hide Staged, Prepared;
  }

  lemma QuestionIsAccepted(b: Book)
    requires "x#0" !in b.interrupts && b.recorded == map[]
    ensures Accept(b, QuestionFrame).Some?
  {
    OneIsNew(b, Asked);
    var publics := ProjectOne(Asked, "root", []);
    OneQuestionProjected(Asked, "root");
    OneGrouped(Asked, publics);
    var groups: seq<seq<Public>> := [publics];
    var natives := [Asked];
    assert natives[1..] == [] && Report(b, natives[1..], groups[1..]) == [] && publics + [] == publics;
    assert Report(b, natives, groups) == publics;
    hide Projection, NewOnes, Grouped, Report;
  }

  /** Both frames are accepted, and no continuation of the run can finish it. */
  lemma RunThatCannotFinish()
    ensures Accept(Empty(), ReviewFrame).Some? && Accept(Next(Empty(), ReviewFrame), QuestionFrame).Some?
    ensures !CanStillFinish(RunAll(Empty(), [ReviewFrame, QuestionFrame]))
  {
    ReviewIsBuffered();
    ReviewIsProjected();
    var b := Next(Empty(), ReviewFrame);
    QuestionIsAccepted(b);
    var frames := [ReviewFrame, QuestionFrame];
    hide Accept, Next, CanStillFinish;
    assert Collides(b, [Asked]) by {
      assert PublicId([Asked][0], 0) == PublicId(Native("x", b.interrupts["x"].value), 0);
    }
    assert frames[1..][0] == QuestionFrame;
    assert !NoCollisions(Next(Empty(), ReviewFrame), frames[1..]);
    assert !NoCollisions(Empty(), frames);
    RunsFinishIff(frames);
  }
}
