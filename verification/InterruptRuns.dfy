/** What every run of child and root frames keeps, and what a finished run has reported. */
module InterruptRuns {
  import opened Interrupts
  import opened Options

  // ---- Grouping --------------------------------------------------------------

  function Total(natives: seq<Native>): nat {
    if natives == [] then 0 else natives[0].Size() + Total(natives[1..])
  }

  ghost predicate Fits(natives: seq<Native>, groups: seq<seq<Public>>) {
    |groups| == |natives| && forall i | 0 <= i < |natives| :: |groups[i]| == natives[i].Size()
  }

  /** Grouping succeeds exactly when the counts add up, and then it partitions the list in order. */
  lemma {:induction false} GroupingPartitions(natives: seq<Native>, prepared: seq<Public>)
    ensures Grouped(natives, prepared).Some? <==> Total(natives) == |prepared|
    ensures Grouped(natives, prepared).Some? ==>
      Fits(natives, Grouped(natives, prepared).value) && Flat(Grouped(natives, prepared).value) == prepared
    decreases |natives|
  {
    if natives != [] && |prepared| >= natives[0].Size() {
      var n := natives[0].Size();
      GroupingPartitions(natives[1..], prepared[n..]);
      assert prepared[..n] + prepared[n..] == prepared;
      var rest := Grouped(natives[1..], prepared[n..]);
      if rest.Some? {
        assert ([prepared[..n]] + rest.value)[1..] == rest.value;
      }
    }
  }

  /** Groups of the right sizes survive being flattened and cut again. */
  lemma {:induction false} GroupingRestores(natives: seq<Native>, groups: seq<seq<Public>>)
    requires Fits(natives, groups)
    ensures Grouped(natives, Flat(groups)) == Some(groups)
    decreases |natives|
  {
    if natives != [] {
      GroupingRestores(natives[1..], groups[1..]);
      assert Flat(groups)[..natives[0].Size()] == groups[0];
      assert Flat(groups)[natives[0].Size()..] == Flat(groups[1..]);
      assert groups == [groups[0]] + groups[1..];
    }
  }

  // ---- The invariant ---------------------------------------------------------

  ghost predicate Ordered(interrupts: map<string, Buffered>, order: seq<string>) {
    NoRepeats(order) && forall id :: id in order <==> id in interrupts
  }

  ghost predicate EntryOk(id: string, entry: Buffered) {
    && entry.id == id && entry.namespaces != [] && NoRepeats(entry.namespaces)
    && forall m, n | m in entry.namespaces && n in entry.namespaces :: Related(m, n)
  }

  /** The rows are exactly the inverse of the namespaces of the entries. */
  ghost predicate Inverse(b: Book) {
    forall ns, id :: id in Row(b, ns) <==> id in b.interrupts && ns in b.interrupts[id].namespaces
  }

  ghost predicate RowsOk(b: Book) {
    && b.rows.Keys == b.snapshots.Keys
    && (forall ns | ns in b.rows :: NoRepeats(b.rows[ns]))
    && Inverse(b)
  }

  ghost predicate UniqueIds(publics: seq<Public>) {
    forall i, j | 0 <= i < j < |publics| :: publics[i].id != publics[j].id
  }

  ghost predicate ReportedOk(b: Book) {
    && UniqueIds(b.reported)
    && (forall p | p in b.reported :: p.id in b.recorded && b.recorded[p.id] == p)
    && (forall id | id in b.recorded :: b.recorded[id].id == id && b.recorded[id] in b.reported)
  }

  /** A resolved request has been reported as it was first prepared. */
  ghost predicate ResolvedOk(b: Book) {
    forall id | id in b.resolved :: id in b.interrupts &&
      forall p | p in b.interrupts[id].prepared :: p.id in b.recorded && b.recorded[p.id] == p
  }

  ghost predicate Ok(b: Book) {
    && Ordered(b.interrupts, b.order)
    && (forall id | id in b.interrupts :: EntryOk(id, b.interrupts[id]))
    && RowsOk(b)
    && UniqueIds(Prepared(b.interrupts, b.order))
    && ReportedOk(b) && ResolvedOk(b)
  }

  lemma EmptyIsOk()
    ensures Ok(Empty())
  {
    assert Prepared(map[], []) == [];
  }

  // ---- Merging ---------------------------------------------------------------

  lemma {:induction false} MergeContents<T>(known: seq<T>, more: seq<T>)
    ensures forall x :: x in Merge(known, more) <==> x in known || x in more
    ensures NoRepeats(known) ==> NoRepeats(Merge(known, more))
    ensures known <= Merge(known, more)
    decreases |more|
  {
    if more != [] {
      var next := if more[0] in known then known else known + [more[0]];
      MergeContents(next, more[1..]);
      assert more == [more[0]] + more[1..];
    }
  }

  lemma {:induction false} MergeConcat<T>(known: seq<T>, a: seq<T>, b: seq<T>)
    ensures Merge(known, a + b) == Merge(Merge(known, a), b)
    decreases |a|
  {
    if a == [] {
      assert a + b == b;
    } else {
      assert (a + b)[0] == a[0] && (a + b)[1..] == a[1..] + b;
      MergeConcat(if a[0] in known then known else known + [a[0]], a[1..], b);
    }
  }

  // ---- Staging ---------------------------------------------------------------

  function NewIn(interrupts: map<string, Buffered>, natives: seq<Native>): nat {
    if natives == [] then 0 else (if natives[0].id in interrupts then 0 else 1) + NewIn(interrupts, natives[1..])
  }

  ghost predicate DistinctIds(natives: seq<Native>) {
    forall i, j | 0 <= i < j < |natives| :: natives[i].id != natives[j].id
  }

  ghost predicate Mentions(natives: seq<Native>, id: string) {
    exists i :: 0 <= i < |natives| && natives[i].id == id
  }

  /** How an entry looks after a frame of `ns` that mentions it or not. */
  ghost predicate StagedEntry(before: map<string, Buffered>, after: map<string, Buffered>, ns: Namespace, mentioned: bool, id: string) {
    && (id in after <==> id in before || mentioned)
    && (id in before ==>
        after[id] == if mentioned && ns !in before[id].namespaces then before[id].(namespaces := before[id].namespaces + [ns])
                     else before[id])
    && (id !in before && mentioned ==> after[id].id == id && after[id].namespaces == [ns])
  }

  lemma NewInStays(interrupts: map<string, Buffered>, more: map<string, Buffered>, natives: seq<Native>)
    requires forall i | 0 <= i < |natives| :: natives[i].id in interrupts <==> natives[i].id in more
    ensures NewIn(interrupts, natives) == NewIn(more, natives)
    decreases |natives|
  {
    if natives != [] { NewInStays(interrupts, more, natives[1..]); }
  }

  lemma {:induction false} StagedEntries(interrupts: map<string, Buffered>, order: seq<string>, ns: Namespace,
                                         natives: seq<Native>, groups: seq<seq<Public>>)
    requires DistinctIds(natives) && |groups| == NewIn(interrupts, natives) && Ordered(interrupts, order)
    ensures var (after, ids) := Staged(interrupts, order, ns, natives, groups);
            && Ordered(after, ids)
            && forall id :: StagedEntry(interrupts, after, ns, Mentions(natives, id), id)
    decreases |natives|
  {
    if natives != [] {
      var n, rest := natives[0], natives[1..];
      var known := n.id in interrupts;
      var entry := if known then (if ns in interrupts[n.id].namespaces then interrupts[n.id]
                                  else interrupts[n.id].(namespaces := interrupts[n.id].namespaces + [ns]))
                   else Buffered(n.id, n.value, groups[0], [ns]);
      var next, ids := interrupts[n.id := entry], if known then order else order + [n.id];
      assert !Mentions(rest, n.id);
      NewInStays(interrupts, next, rest);
      assert Ordered(next, ids) by {
        forall id ensures id in ids <==> id in next {
          assert id in order + [n.id] <==> id in order || id == n.id;
        }
      }
      StagedEntries(next, ids, ns, rest, if known then groups else groups[1..]);
      var after := Staged(interrupts, order, ns, natives, groups).0;
      forall id ensures StagedEntry(interrupts, after, ns, Mentions(natives, id), id) {
        assert Mentions(natives, id) <==> id == n.id || Mentions(rest, id) by { MentionsStep(natives, id); }
        assert StagedEntry(next, after, ns, Mentions(rest, id), id);
      }
    } else {
      assert forall id :: !Mentions(natives, id);
    }
  }

  lemma MentionsStep(natives: seq<Native>, id: string)
    requires natives != []
    ensures Mentions(natives, id) <==> id == natives[0].id || Mentions(natives[1..], id)
  {
    if i :| 0 <= i < |natives| && natives[i].id == id {
      if i > 0 { assert natives[1..][i - 1].id == id; }
    }
    if i :| 0 <= i < |natives| - 1 && natives[1..][i].id == id { assert natives[i + 1].id == id; }
  }

  lemma NewOnesCount(b: Book, natives: seq<Native>)
    ensures |NewOnes(b, natives)| == NewIn(b.interrupts, natives)
    decreases |natives|
  {
  }

  // ---- Child frames ----------------------------------------------------------

  lemma StagedEntryOk(b: Book, after: map<string, Buffered>, ns: Namespace, natives: seq<Native>, id: string)
    requires Admissible(b, ns, natives) && StagedEntry(b.interrupts, after, ns, Mentions(natives, id), id) && id in after
    requires id in b.interrupts ==> EntryOk(id, b.interrupts[id])
    ensures EntryOk(id, after[id])
  {
    if id in b.interrupts && Mentions(natives, id) && ns !in b.interrupts[id].namespaces {
      var i :| 0 <= i < |natives| && natives[i].id == id;
      assert forall m | m in b.interrupts[id].namespaces :: Related(m, ns);
      var known := b.interrupts[id].namespaces;
      assert forall m | m in known + [ns] :: m in known || m == ns;
    }
  }

  lemma IdsContents(natives: seq<Native>, id: string)
    ensures id in Ids(natives) <==> Mentions(natives, id)
  {
    if i :| 0 <= i < |natives| && natives[i].id == id { assert Ids(natives)[i] == id; }
    if id in Ids(natives) {
      var i :| 0 <= i < |Ids(natives)| && Ids(natives)[i] == id;
      assert natives[i].id == id;
    }
  }

  lemma ChildRowsOk(b: Book, after: Book, ns: Namespace, natives: seq<Native>)
    requires RowsOk(b)
    requires forall id :: StagedEntry(b.interrupts, after.interrupts, ns, Mentions(natives, id), id)
    requires after.rows == b.rows[ns := Merge(Row(b, ns), Ids(natives))] && after.snapshots.Keys == b.snapshots.Keys + {ns}
    ensures RowsOk(after)
  {
    MergeContents(Row(b, ns), Ids(natives));
    forall m, id ensures id in Row(after, m) <==> id in after.interrupts && m in after.interrupts[id].namespaces {
      IdsContents(natives, id);
      assert StagedEntry(b.interrupts, after.interrupts, ns, Mentions(natives, id), id);
      assert id in Row(b, m) <==> id in b.interrupts && m in b.interrupts[id].namespaces;
      if id in b.interrupts {
        var known := b.interrupts[id].namespaces;
        assert m in known + [ns] <==> m in known || m == ns;
      }
    }
  }

  /** An accepted child frame keeps the book in order and never changes what was prepared. */
  lemma ChildKeepsOk(b: Book, ns: Namespace, natives: seq<Native>, projected: Option<seq<Public>>, messages: seq<Message>)
    requires Ok(b) && AcceptChild(b, ns, natives, projected, messages).Some?
    ensures var after := AcceptChild(b, ns, natives, projected, messages).value;
            && Ok(after)
            && forall id :: StagedEntry(b.interrupts, after.interrupts, ns, Mentions(natives, id), id)
  {
    if natives != [] {
      var answer := projected.value;
      var groups := Grouped(NewOnes(b, natives), answer).value;
      GroupingPartitions(NewOnes(b, natives), answer);
      NewOnesCount(b, natives);
      StagedEntries(b.interrupts, b.order, ns, natives, groups);
      var after := AcceptChild(b, ns, natives, projected, messages).value;
      ChildRowsOk(b, after, ns, natives);
      hide Staged, Grouped, Row, RowsOk, Prepared, ProposalsStay, Mentions;
      forall id | id in after.interrupts ensures EntryOk(id, after.interrupts[id]) {
        StagedEntryOk(b, after.interrupts, ns, natives, id);
      }
      assert ResolvedOk(after) by {
        forall id | id in b.resolved ensures id in after.interrupts && after.interrupts[id].prepared == b.interrupts[id].prepared {
          assert StagedEntry(b.interrupts, after.interrupts, ns, Mentions(natives, id), id);
        }
      }
    } else {
      forall id ensures StagedEntry(b.interrupts, b.interrupts, ns, Mentions(natives, id), id) {
        assert !Mentions(natives, id);
      }
    }
  }

  // ---- Root frames -----------------------------------------------------------

  ghost predicate RecordedAs(recorded: map<string, Public>, p: Public) { p.id in recorded && recorded[p.id] == p }

  lemma {:induction false} RecordKeeps(recorded: map<string, Public>, reported: seq<Public>, prepared: seq<Public>)
    requires UniqueIds(reported) && forall p | p in reported :: RecordedAs(recorded, p)
    requires forall id | id in recorded :: recorded[id].id == id && recorded[id] in reported
    requires Publishable(prepared, recorded)
    ensures var (after, all) := Record(recorded, reported, prepared);
            && UniqueIds(all) && reported <= all
            && (forall p | p in all :: RecordedAs(after, p))
            && (forall id | id in after :: after[id].id == id && after[id] in all)
            && (forall id | id in recorded :: id in after && after[id] == recorded[id])
            && (forall p | p in prepared :: RecordedAs(after, p))
    decreases |prepared|
  {
    if prepared != [] {
      var p, rest := prepared[0], prepared[1..];
      assert prepared == [p] + rest;
      if p.id in recorded {
        RecordKeeps(recorded, reported, rest);
      } else {
        RecordMore(recorded, reported, p);
        assert Publishable(rest, recorded[p.id := p]) by {
          forall i | 0 <= i < |rest| ensures rest[i].id != p.id { assert prepared[i + 1] == rest[i]; }
        }
        RecordKeeps(recorded[p.id := p], reported + [p], rest);
        var (after, all) := Record(recorded, reported, prepared);
        assert RecordedAs(after, p);
      }
    }
  }

  lemma RecordMore(recorded: map<string, Public>, reported: seq<Public>, p: Public)
    requires UniqueIds(reported) && forall q | q in reported :: RecordedAs(recorded, q)
    requires forall id | id in recorded :: recorded[id].id == id && recorded[id] in reported
    requires p.id !in recorded
    ensures UniqueIds(reported + [p])
    ensures forall q | q in reported + [p] :: RecordedAs(recorded[p.id := p], q)
    ensures var next := recorded[p.id := p]; forall id | id in next :: next[id].id == id && next[id] in reported + [p]
  {
    forall i | 0 <= i < |reported| ensures reported[i].id != p.id {
      assert RecordedAs(recorded, reported[i]);
    }
  }

  lemma {:induction false} ReportContains(b: Book, natives: seq<Native>, groups: seq<seq<Public>>, i: nat, p: Public)
    requires i < |natives| && natives[i].id in b.interrupts && p in b.interrupts[natives[i].id].prepared
    ensures p in Report(b, natives, groups)
    decreases |natives|
  {
    if i > 0 {
      if natives[0].id in b.interrupts || groups == [] {
        ReportContains(b, natives[1..], groups, i - 1, p);
      } else {
        ReportContains(b, natives[1..], groups[1..], i - 1, p);
      }
    }
  }

  lemma RootKeepsOk(b: Book, natives: seq<Native>, projected: Option<seq<Public>>)
    requires Ok(b) && AcceptRoot(b, natives, projected).Some?
    ensures Ok(AcceptRoot(b, natives, projected).value)
  {
    var report := RootReport(b, natives, projected).value;
    if report != [] {
      var after := AcceptRoot(b, natives, projected).value;
      RecordKeeps(b.recorded, b.reported, report);
      var groups := Grouped(NewOnes(b, natives), projected.value).value;
      assert report == Report(b, natives, groups);
      hide Record, RootReport, Grouped, Prepared, Report, UniqueIds;
      forall id | id in after.resolved
        ensures id in after.interrupts && forall p | p in after.interrupts[id].prepared :: RecordedAs(after.recorded, p)
      {
        if id !in b.resolved {
          var i :| 0 <= i < |natives| && natives[i].id in b.interrupts && natives[i].id == id;
          forall p | p in b.interrupts[id].prepared ensures p in report {
            ReportContains(b, natives, groups, i, p);
          }
        } else {
          assert forall p | p in b.interrupts[id].prepared :: p.id in b.recorded && b.recorded[p.id] == p;
        }
      }
      assert RowsOk(after) by { assert Inverse(b); assert forall ns :: Row(after, ns) == Row(b, ns); }
      assert ResolvedOk(after) by {
        forall id | id in after.resolved
          ensures id in after.interrupts &&
            forall p | p in after.interrupts[id].prepared :: p.id in after.recorded && after.recorded[p.id] == p
        {
          assert forall p | p in after.interrupts[id].prepared :: RecordedAs(after.recorded, p);
        }
      }
      assert ReportedOk(after) by {
        assert forall p | p in after.reported :: RecordedAs(after.recorded, p);
      }
    }
  }

  // ---- Runs ------------------------------------------------------------------

  lemma FrameKeepsOk(b: Book, frame: Frame)
    requires Ok(b)
    ensures Ok(Next(b, frame))
  {
    hide Ok, AcceptChild, AcceptRoot;
    if Accept(b, frame).Some? {
      match frame
      case Child(ns, natives, source, calls, messages) =>
        ChildKeepsOk(b, ns, natives, Projection(NewOnes(b, natives), source, calls), messages);
      case Root(natives, source, calls) => RootKeepsOk(b, natives, Projection(NewOnes(b, natives), source, calls));
    }
  }

  /**
   Over every run: namespaces of a request contain one another, the rows are their exact
   inverse, no two buffered requests share a public ID, and what is resolved was reported.
   */
  lemma {:induction false} EveryRunKeepsOk(b: Book, frames: seq<Frame>)
    requires Ok(b)
    ensures Ok(RunAll(b, frames))
    decreases |frames|
  {
    if frames != [] {
      FrameKeepsOk(b, frames[0]);
      hide Ok, Next;
      EveryRunKeepsOk(Next(b, frames[0]), frames[1..]);
    }
  }

  // ---- Order of first appearance ---------------------------------------------

  /** The IDs that accepted frames of a namespace brought, one after the other. */
  ghost function Seen(b: Book, frames: seq<Frame>, ns: Namespace): seq<string>
    decreases |frames|
  {
    if frames == [] then []
    else
      (if Accept(b, frames[0]).Some? && frames[0].Child? && frames[0].ns == ns then Ids(frames[0].natives) else []) +
      Seen(Next(b, frames[0]), frames[1..], ns)
  }

  lemma RowAfter(b: Book, frame: Frame, ns: Namespace)
    ensures Row(Next(b, frame), ns) ==
            if Accept(b, frame).Some? && frame.Child? && frame.ns == ns then Merge(Row(b, ns), Ids(frame.natives)) else Row(b, ns)
  {
    hide Staged, Prepared, Grouped, Record, Report, Admissible, ProposalsStay;
  }

  lemma {:induction false} RowsAreFirstSeen(b: Book, frames: seq<Frame>, ns: Namespace)
    ensures Row(RunAll(b, frames), ns) == Merge(Row(b, ns), Seen(b, frames, ns))
    decreases |frames|
  {
    if frames != [] {
      RowAfter(b, frames[0], ns);
      hide Accept, Next, Row;
      RowsAreFirstSeen(Next(b, frames[0]), frames[1..], ns);
      var now := if Accept(b, frames[0]).Some? && frames[0].Child? && frames[0].ns == ns then Ids(frames[0].natives) else [];
      MergeConcat(Row(b, ns), now, Seen(Next(b, frames[0]), frames[1..], ns));
    }
  }

  // ---- What never changes ----------------------------------------------------

  /** A buffered request keeps its content; it can only be placed in more namespaces. */
  ghost predicate Extends(before: Book, after: Book, id: string) {
    id in before.interrupts ==>
      && id in after.interrupts
      && after.interrupts[id].value == before.interrupts[id].value
      && after.interrupts[id].prepared == before.interrupts[id].prepared
      && before.interrupts[id].namespaces <= after.interrupts[id].namespaces
  }

  ghost predicate RecordExtends(before: Book, after: Book) {
    forall p | p in before.recorded :: p in after.recorded && after.recorded[p] == before.recorded[p]
  }

  lemma FrameExtends(b: Book, frame: Frame, id: string)
    requires Ok(b)
    ensures Extends(b, Next(b, frame), id) && RecordExtends(b, Next(b, frame))
  {
    if Accept(b, frame).Some? {
      match frame
      case Child(ns, natives, source, calls, messages) =>
        ChildKeepsOk(b, ns, natives, Projection(NewOnes(b, natives), source, calls), messages);
        assert StagedEntry(b.interrupts, Next(b, frame).interrupts, ns, Mentions(natives, id), id);
        assert Next(b, frame).recorded == b.recorded;
      case Root(natives, source, calls) =>
        var projected := Projection(NewOnes(b, natives), source, calls);
        if RootReport(b, natives, projected).value != [] {
          RecordKeeps(b.recorded, b.reported, RootReport(b, natives, projected).value);
        }
    }
  }

  lemma {:induction false} RequestsNeverChange(b: Book, frames: seq<Frame>, id: string)
    requires Ok(b)
    ensures Extends(b, RunAll(b, frames), id) && RecordExtends(b, RunAll(b, frames))
    decreases |frames|
  {
    if frames != [] {
      FrameExtends(b, frames[0], id);
      FrameKeepsOk(b, frames[0]);
      hide Ok, Next;
      RequestsNeverChange(Next(b, frames[0]), frames[1..], id);
    }
  }

  lemma WaitsStays(b: Book, after: Book, ns: Namespace, call: string)
    requires Ok(b) && Waits(b, ns, call) && Row(b, ns) <= Row(after, ns) && forall id :: Extends(b, after, id)
    ensures Waits(after, ns, call)
  {
    var id, k :| id in Row(b, ns) && id in b.interrupts && 0 <= k < |b.interrupts[id].prepared|
                 && b.interrupts[id].prepared[k].toolCall == Some(call);
    assert Extends(b, after, id);
    var i :| 0 <= i < |Row(b, ns)| && Row(b, ns)[i] == id;
    assert Row(after, ns)[i] == id;
    assert id in Row(after, ns) && after.interrupts[id].prepared[k].toolCall == Some(call);
  }

  ghost predicate Proposed(b: Book, ns: Namespace, call: string, proposal: (string, Call)) {
    ns in b.snapshots && call in Proposals(b.snapshots[ns]) && Proposals(b.snapshots[ns])[call] == proposal && Waits(b, ns, call)
  }

  lemma FrameKeepsProposals(b: Book, frame: Frame, ns: Namespace, call: string, proposal: (string, Call))
    requires Ok(b) && Proposed(b, ns, call, proposal)
    ensures Proposed(Next(b, frame), ns, call, proposal)
  {
    RowAfter(b, frame, ns);
    if frame.Child? { MergeContents(Row(b, ns), Ids(frame.natives)); }
    forall id ensures Extends(b, Next(b, frame), id) {
      FrameExtends(b, frame, id);
    }
    WaitsStays(b, Next(b, frame), ns, call);
    hide Waits, Row, Staged, Prepared, Grouped, Report, Record, Ok, Extends, Admissible;
  }

  /** The proposal behind a pending decision is the same in every later snapshot. */
  lemma {:induction false} PendingProposalsStay(b: Book, frames: seq<Frame>, ns: Namespace, call: string, proposal: (string, Call))
    requires Ok(b) && Proposed(b, ns, call, proposal)
    ensures Proposed(RunAll(b, frames), ns, call, proposal)
    decreases |frames|
  {
    if frames != [] {
      FrameKeepsProposals(b, frames[0], ns, call, proposal);
      FrameKeepsOk(b, frames[0]);
      hide Ok, Next, Proposed;
      PendingProposalsStay(Next(b, frames[0]), frames[1..], ns, call, proposal);
    }
  }

  // ---- Finishing -------------------------------------------------------------

  /** A run may finish only when every buffered request was reported, each exactly once and unchanged. */
  lemma FinishedRunReportedEverything(b: Book, id: string, p: Public)
    requires Ok(b) && CanFinish(b) && id in b.interrupts && p in b.interrupts[id].prepared
    ensures exists k :: 0 <= k < |b.reported| && b.reported[k] == p
                        && forall j | 0 <= j < |b.reported| && b.reported[j].id == p.id :: j == k
  {
    assert p.id in b.recorded && b.recorded[p.id] == p;
    var k :| 0 <= k < |b.reported| && b.reported[k] == p;
    forall j | 0 <= j < |b.reported| && b.reported[j].id == p.id ensures j == k {
      UniqueAt(b.reported, j, k);
    }
  }

  lemma UniqueAt(publics: seq<Public>, i: nat, j: nat)
    requires UniqueIds(publics) && i < |publics| && j < |publics| && publics[i].id == publics[j].id
    ensures i == j
  {
  }
}
