/**
 The adapter's request tables as an object: every frame is checked against staged copies,
 and the tables are replaced together at the end or not at all.
 */
module InterruptBuffer {
  import opened InterruptRuns
  import opened ByteFormats
  import opened Interrupts
  import opened Options

  class Buffer {
    var childInterrupts: map<string, Buffered>
    var childOrder: seq<string>
    var idsByNamespace: map<Namespace, seq<string>>
    var namespaceOrder: seq<Namespace>
    var messageSnapshots: map<Namespace, seq<Message>>
    var resolvedIds: set<string>
    var interruptsById: map<string, Public>
    var interruptsInOrder: seq<Public>

    constructor ()
      ensures Model() == Empty()
    {
      childInterrupts, childOrder := map[], [];
      idsByNamespace, namespaceOrder, messageSnapshots := map[], [], map[];
      resolvedIds, interruptsById, interruptsInOrder := {}, map[], [];
    }

    ghost function Model(): Book
      reads this
    {
      Book(childInterrupts, childOrder, idsByNamespace, namespaceOrder, messageSnapshots, resolvedIds,
           interruptsById, interruptsInOrder)
    }

    // ---- Checks ----------------------------------------------------------------

    method GroupPrepared(natives: seq<Native>, prepared: seq<Public>) returns (groups: Option<seq<seq<Public>>>)
      ensures groups == Grouped(natives, prepared)
    {
      var grouped: seq<seq<Public>> := [];
      var offset := 0;
      assert natives[0..] == natives && prepared[0..] == prepared;
      assert Grouped(natives, prepared).Some? ==> [] + Grouped(natives, prepared).value == Grouped(natives, prepared).value;
      for i := 0 to |natives|
        invariant 0 <= offset <= |prepared|
        invariant var rest := Grouped(natives[i..], prepared[offset..]);
                  Grouped(natives, prepared) == if rest.None? then None else Some(grouped + rest.value)
      {
        var size := natives[i].Size();
        assert natives[i..][0] == natives[i] && natives[i..][1..] == natives[i + 1..];
        if offset + size > |prepared| {
          return None;
        }
        assert prepared[offset..][..size] == prepared[offset..offset + size];
        assert prepared[offset..][size..] == prepared[offset + size..];
        ghost var rest := Grouped(natives[i + 1..], prepared[offset + size..]);
        if rest.Some? {
          assert grouped + ([prepared[offset..offset + size]] + rest.value) == (grouped + [prepared[offset..offset + size]]) + rest.value;
        }
        grouped := grouped + [prepared[offset..offset + size]];
        offset := offset + size;
      }
      if offset != |prepared| {
        return None;
      }
      assert grouped + [] == grouped;
      return Some(grouped);
    }

    method ValidatePrepared(prepared: seq<Public>) returns (ok: bool)
      ensures ok == Publishable(prepared, interruptsById)
    {
      var seen: set<string> := {};
      for i := 0 to |prepared|
        invariant seen == set j | 0 <= j < i :: prepared[j].id
        invariant forall j, k | 0 <= j < k < i :: prepared[j].id != prepared[k].id
        invariant forall j | 0 <= j < i && prepared[j].id in interruptsById :: interruptsById[prepared[j].id] == prepared[j]
      {
        var public := prepared[i];
        if public.id in seen {
          return false;
        }
        seen := seen + {public.id};
        if public.id in interruptsById && interruptsById[public.id] != public {
          return false;
        }
      }
      return true;
    }

    /** A request that is new, or has its value and a related namespace. */
    predicate FitsBuffer(b: Book, ns: Namespace, native: Native) {
      native.id in b.interrupts ==>
        var known := b.interrupts[native.id];
        known.value == native.value && (ns in known.namespaces || forall m | m in known.namespaces :: Related(m, ns))
    }

    /** One more request keeps a list admissible exactly when it is new to the list and agrees with the buffer. */
    lemma AdmissibleMore(b: Book, ns: Namespace, natives: seq<Native>, i: nat)
      requires i < |natives|
      ensures Admissible(b, ns, []) && (Admissible(b, ns, natives) ==> Admissible(b, ns, natives[..i + 1]))
      ensures Admissible(b, ns, natives[..i + 1]) <==>
              && Admissible(b, ns, natives[..i])
              && (forall j | 0 <= j < i :: natives[j].id != natives[i].id)
              && FitsBuffer(b, ns, natives[i])
    {
      hide Related;
      assert natives[..i + 1] == natives[..i] + [natives[i]];
      if Admissible(b, ns, natives) {
        assert forall j | 0 <= j <= i :: natives[..i + 1][j] == natives[j];
      }
    }

    method CheckKnown(ns: Namespace, native: Native) returns (ok: bool)
      ensures ok == FitsBuffer(Model(), ns, native)
    {
      if native.id !in childInterrupts {
        return true;
      }
      var known := childInterrupts[native.id];
      return known.value == native.value && (ns in known.namespaces || forall m | m in known.namespaces :: Related(m, ns));
    }

    /** The IDs of the first `n` requests. */
    ghost predicate Among(ids: set<string>, natives: seq<Native>, n: nat) {
      forall id :: id in ids <==> exists j :: 0 <= j < n && j < |natives| && natives[j].id == id
    }

    lemma AmongMore(ids: set<string>, natives: seq<Native>, i: nat)
      requires i < |natives| && Among(ids, natives, i)
      ensures natives[i].id in ids <==> exists j :: 0 <= j < i && natives[j].id == natives[i].id
      ensures Among(ids + {natives[i].id}, natives, i + 1)
    {
    }

    /** The new requests among the first `n` are listed. */
    ghost predicate Listed(b: Book, natives: seq<Native>, newOnes: seq<Native>, n: nat) {
      n <= |natives| && NewOnes(b, natives) == newOnes + NewOnes(b, natives[n..])
    }

    lemma NoneListed(b: Book, natives: seq<Native>)
      ensures Listed(b, natives, [], 0) && Among({}, natives, 0)
    {
      assert natives[0..] == natives;
    }

    lemma DropOne(natives: seq<Native>, i: nat)
      requires i < |natives|
      ensures natives[i..] != [] && natives[i..][0] == natives[i] && natives[i..][1..] == natives[i + 1..]
    {
    }

    lemma FirstOfNew(b: Book, natives: seq<Native>)
      requires natives != []
      ensures NewOnes(b, natives) == (if natives[0].id in b.interrupts then [] else [natives[0]]) + NewOnes(b, natives[1..])
    {
    }

    lemma JoinNew(a: seq<Native>, b: seq<Native>, c: seq<Native>)
      ensures a + (b + c) == (a + b) + c
    {
    }

    lemma ListedMore(b: Book, natives: seq<Native>, newOnes: seq<Native>, i: nat)
      requires i < |natives| && Listed(b, natives, newOnes, i)
      ensures Listed(b, natives, if natives[i].id in b.interrupts then newOnes else newOnes + [natives[i]], i + 1)
    {
      DropOne(natives, i);
      FirstOfNew(b, natives[i..]);
      hide NewOnes;
      JoinNew(newOnes, if natives[i].id in b.interrupts then [] else [natives[i]], NewOnes(b, natives[i + 1..]));
      assert newOnes + [] == newOnes;
    }

    lemma AllListed(b: Book, natives: seq<Native>, newOnes: seq<Native>)
      requires Listed(b, natives, newOnes, |natives|)
      ensures newOnes == NewOnes(b, natives) && natives[..|natives|] == natives
    {
      assert natives[|natives|..] == [];
    }

    method CheckChild(ns: Namespace, natives: seq<Native>) returns (ok: bool, newOnes: seq<Native>)
      ensures ok == Admissible(Model(), ns, natives)
      ensures ok ==> newOnes == NewOnes(Model(), natives)
    {
      var seen: set<string> := {};
      newOnes := [];
      assert Admissible(Model(), ns, []);
      hide Admissible, FitsBuffer, NewOnes, Among, Listed;
      NoneListed(Model(), natives);
      for i := 0 to |natives|
        invariant Among(seen, natives, i) && Listed(Model(), natives, newOnes, i)
        invariant Admissible(Model(), ns, natives[..i])
      {
        var native := natives[i];
        AdmissibleMore(Model(), ns, natives, i);
        AmongMore(seen, natives, i);
        ListedMore(Model(), natives, newOnes, i);
        var fits := CheckKnown(ns, native);
        if native.id in seen || !fits {
          return false, newOnes;
        }
        seen := seen + {native.id};
        if native.id !in childInterrupts {
          newOnes := newOnes + [native];
        }
      }
      AllListed(Model(), natives, newOnes);
      ok := true;
    }

    method StageAll(ns: Namespace, natives: seq<Native>, groups: seq<seq<Public>>)
      returns (staged: map<string, Buffered>, order: seq<string>)
      ensures (staged, order) == Staged(childInterrupts, childOrder, ns, natives, groups)
    {
      staged, order := childInterrupts, childOrder;
      var next := 0;
      for i := 0 to |natives|
        invariant 0 <= next <= |groups|
        invariant Staged(childInterrupts, childOrder, ns, natives, groups) == Staged(staged, order, ns, natives[i..], groups[next..])
      {
        var native := natives[i];
        assert natives[i..][0] == native && natives[i..][1..] == natives[i + 1..];
        if native.id in staged {
          var known := staged[native.id];
          if ns !in known.namespaces {
            staged := staged[native.id := known.(namespaces := known.namespaces + [ns])];
          } else {
            assert staged[native.id := known] == staged;
          }
        } else if next < |groups| {
          assert groups[next..][1..] == groups[next + 1..];
          staged := staged[native.id := Buffered(native.id, native.value, groups[next], [ns])];
          order := order + [native.id];
          next := next + 1;
        }
      }
    }

    method AllPrepared(staged: map<string, Buffered>, order: seq<string>) returns (prepared: seq<Public>)
      ensures prepared == Prepared(staged, order)
    {
      prepared := [];
      for i := 0 to |order|
        invariant Prepared(staged, order) == prepared + Prepared(staged, order[i..])
      {
        assert order[i..][0] == order[i] && order[i..][1..] == order[i + 1..];
        if order[i] in staged {
          Regroup(prepared, staged[order[i]].prepared, Prepared(staged, order[i + 1..]));
          prepared := prepared + staged[order[i]].prepared;
        }
      }
    }

    /** The calls behind the requests that a namespace has shown so far. */
    method PendingCalls(ns: Namespace) returns (calls: set<string>)
      ensures forall call :: call in calls <==> Waits(Model(), ns, call)
    {
      calls := {};
      var ids := if ns in idsByNamespace then idsByNamespace[ns] else [];
      for i := 0 to |ids|
        invariant forall call :: call in calls <==> exists j :: 0 <= j < i && ids[j] in childInterrupts && CallIn(childInterrupts[ids[j]].prepared, call)
      {
        if ids[i] in childInterrupts {
          var more := CallsOf(childInterrupts[ids[i]].prepared);
          calls := calls + more;
        }
      }
      forall call ensures call in calls <==> Waits(Model(), ns, call) {
        if call in calls {
          var j :| 0 <= j < |ids| && ids[j] in childInterrupts && CallIn(childInterrupts[ids[j]].prepared, call);
          assert ids[j] in Row(Model(), ns);
        }
        if Waits(Model(), ns, call) {
          var id, k :| id in Row(Model(), ns) && id in childInterrupts && 0 <= k < |childInterrupts[id].prepared|
                       && childInterrupts[id].prepared[k].toolCall == Some(call);
          var j :| 0 <= j < |ids| && ids[j] == id;
          assert CallIn(childInterrupts[ids[j]].prepared, call);
        }
      }
    }

    ghost predicate CallIn(prepared: seq<Public>, call: string) {
      exists k :: 0 <= k < |prepared| && prepared[k].toolCall == Some(call)
    }

    method CallsOf(prepared: seq<Public>) returns (calls: set<string>)
      ensures forall call :: call in calls <==> CallIn(prepared, call)
    {
      calls := {};
      for i := 0 to |prepared|
        invariant forall call :: call in calls <==> exists k :: 0 <= k < i && prepared[k].toolCall == Some(call)
      {
        if prepared[i].toolCall.Some? {
          calls := calls + {prepared[i].toolCall.value};
        }
      }
    }

    method ProposalsUnchanged(ns: Namespace, messages: seq<Message>) returns (ok: bool)
      ensures ok == ProposalsStay(Model(), ns, messages)
    {
      if ns !in messageSnapshots {
        return true;
      }
      var before, now := Proposals(messageSnapshots[ns]), Proposals(messages);
      var pending := PendingCalls(ns);
      ok := forall call | call in pending && call in before :: call in now && now[call] == before[call];
    }

    /** Keeps a row's order of first appearance. */
    method MergeIds(known: seq<string>, natives: seq<Native>) returns (row: seq<string>)
      ensures row == Merge(known, Ids(natives))
    {
      row := known;
      for i := 0 to |natives|
        invariant Merge(known, Ids(natives)) == Merge(row, Ids(natives)[i..])
      {
        assert Ids(natives)[i..][0] == natives[i].id && Ids(natives)[i..][1..] == Ids(natives)[i + 1..];
        if natives[i].id !in row {
          row := row + [natives[i].id];
        }
      }
    }

    // ---- Projection ------------------------------------------------------------

    /** The public requests of one native request, in the order of its actions. */
    method ProjectInterrupt(n: Native, source: string, calls: seq<string>) returns (group: seq<Public>)
      requires n.value.Review? ==> |calls| == n.Size()
      ensures group == ProjectOne(n, source, calls)
    {
      group := [];
      for k := 0 to n.Size()
        invariant group == ProjectOne(n, source, calls)[..k]
      {
        var id := if n.Size() > 1 then n.id + "#" + Decimal(k) else n.id;
        var toolCall := if n.value.Review? then Some(calls[k]) else None;
        var native := if n.value.Other? then None else Some((n.id, k));
        group := group + [Public(id, toolCall, Body(native, n.value, source))];
      }
    }

    /** Every new request is projected, or the frame is refused. */
    method PrepareInterrupts(natives: seq<Native>, source: string, calls: Option<seq<seq<string>>>)
      returns (prepared: Option<seq<Public>>)
      ensures prepared == Projection(natives, source, calls)
    {
      if exists i :: 0 <= i < |natives| && natives[i].value.Broken? {
        return None;
      }
      if exists i :: 0 <= i < |natives| && natives[i].value.Review? {
        if calls.None? || exists i :: 0 <= i < |natives| && natives[i].value.Runtime? {
          return None;
        }
      }
      var found, next, publics := calls.GetOr([]), 0, [];
      assert natives[0..] == natives && found[0..] == found;
      assert forall rest: seq<Public> :: [] + rest == rest;
      hide ProjectOne;
      for i := 0 to |natives|
        invariant 0 <= next <= |found|
        invariant ProjectAll(natives, source, found) == Prepended(publics, ProjectAll(natives[i..], source, found[next..]))
      {
        var n := natives[i];
        assert natives[i..][0] == n && natives[i..][1..] == natives[i + 1..];
        var group: seq<Public>;
        if n.value.Review? {
          if next == |found| || |found[next]| != n.Size()
             || exists j, k :: 0 <= j < k < |found[next]| && found[next][j] == found[next][k] {
            return None;
          }
          assert found[next..][0] == found[next] && found[next..][1..] == found[next + 1..];
          group := ProjectInterrupt(n, source, found[next]);
          next := next + 1;
        } else {
          group := ProjectInterrupt(n, source, []);
        }
        PrependTwice(publics, group, ProjectAll(natives[i + 1..], source, found[next..]));
        publics := publics + group;
      }
      assert publics + [] == publics;
      return Some(publics);
    }

    ghost function Prepended(first: seq<Public>, rest: Option<seq<Public>>): Option<seq<Public>> {
      if rest.None? then None else Some(first + rest.value)
    }

    lemma PrependTwice(a: seq<Public>, b: seq<Public>, rest: Option<seq<Public>>)
      ensures Prepended(a, Prepended(b, rest)) == Prepended(a + b, rest)
    {
      if rest.Some? { assert a + (b + rest.value) == a + b + rest.value; }
    }

    // ---- Frames ----------------------------------------------------------------

    /** Either all three tables take the frame in, or none of them changes. */
    method BufferChildInterrupts(ns: Namespace, natives: seq<Native>, source: string, calls: Option<seq<seq<string>>>,
                                 messages: seq<Message>)
      returns (ok: bool)
      modifies `childInterrupts, `childOrder, `idsByNamespace, `namespaceOrder, `messageSnapshots
      ensures ok <==> Accept(old(Model()), Child(ns, natives, source, calls, messages)).Some?
      ensures Model() == Next(old(Model()), Child(ns, natives, source, calls, messages))
    {
      hide Projection, Admissible, NewOnes, Grouped, Publishable, Staged, Prepared, ProposalsStay, Merge;
      if natives == [] {
        return true;
      }
      var newOnes: seq<Native>;
      ok, newOnes := CheckChild(ns, natives);
      if !ok {
        return;
      }
      var answer := PrepareInterrupts(newOnes, source, calls);
      if answer.None? {
        return false;
      }
      ok := ValidatePrepared(answer.value);
      if !ok {
        return;
      }
      var groups := GroupPrepared(newOnes, answer.value);
      if groups.None? {
        return false;
      }
      var staged, order := StageAll(ns, natives, groups.value);
      var prepared := AllPrepared(staged, order);
      ok := ValidatePrepared(prepared);
      if !ok {
        return;
      }
      ok := ProposalsUnchanged(ns, messages);
      if !ok {
        return;
      }
      var row := MergeIds(if ns in idsByNamespace then idsByNamespace[ns] else [], natives);
      var stagedRows, stagedMessages := idsByNamespace[ns := row], messageSnapshots[ns := messages];
      namespaceOrder := if ns in idsByNamespace then namespaceOrder else namespaceOrder + [ns];
      childInterrupts, childOrder := staged, order;
      idsByNamespace, messageSnapshots := stagedRows, stagedMessages;
    }

    /** One more request keeps a list repeatable exactly when it is new to the list and agrees with the buffer. */
    lemma RepeatableMore(b: Book, natives: seq<Native>, i: nat)
      requires i < |natives|
      ensures Repeatable(b, natives[..i + 1]) <==>
              && Repeatable(b, natives[..i])
              && (forall j | 0 <= j < i :: natives[j].id != natives[i].id)
              && (natives[i].id in b.interrupts ==> b.interrupts[natives[i].id].value == natives[i].value)
      ensures Repeatable(b, natives) ==> Repeatable(b, natives[..i + 1])
    {
      assert natives[..i + 1] == natives[..i] + [natives[i]];
      if Repeatable(b, natives) {
        assert forall j | 0 <= j <= i :: natives[..i + 1][j] == natives[j];
      }
    }

    method CheckRoot(natives: seq<Native>) returns (ok: bool, newOnes: seq<Native>)
      ensures ok == Repeatable(Model(), natives)
      ensures ok ==> newOnes == NewOnes(Model(), natives)
    {
      hide Repeatable, NewOnes, Among, Listed;
      var seen: set<string> := {};
      newOnes := [];
      RepeatableNone(Model());
      NoneListed(Model(), natives);
      for i := 0 to |natives|
        invariant Among(seen, natives, i) && Listed(Model(), natives, newOnes, i)
        invariant Repeatable(Model(), natives[..i])
      {
        var native := natives[i];
        RepeatableMore(Model(), natives, i);
        AmongMore(seen, natives, i);
        ListedMore(Model(), natives, newOnes, i);
        if native.id in seen {
          return false, newOnes;
        }
        seen := seen + {native.id};
        if native.id !in childInterrupts {
          newOnes := newOnes + [native];
        } else if childInterrupts[native.id].value != native.value {
          return false, newOnes;
        }
      }
      AllListed(Model(), natives, newOnes);
      ok := true;
    }

    lemma RepeatableNone(b: Book)
      ensures Repeatable(b, [])
    {
    }

    method PrepareRootInterrupts(natives: seq<Native>, source: string, calls: Option<seq<seq<string>>>)
      returns (report: Option<seq<Public>>, propagated: set<string>)
      ensures report == RootReport(Model(), natives, Projection(NewOnes(Model(), natives), source, calls))
      ensures report.Some? ==> propagated == Propagated(Model(), natives)
    {
      hide Projection, Repeatable, NewOnes, Grouped, Publishable;
      propagated := {};
      var ok, newOnes := CheckRoot(natives);
      if !ok {
        return None, {};
      }
      var answer := PrepareInterrupts(newOnes, source, calls);
      if answer.None? {
        return None, {};
      }
      ok := ValidatePrepared(answer.value);
      if !ok {
        return None, {};
      }
      var groups := GroupPrepared(newOnes, answer.value);
      if groups.None? {
        return None, {};
      }
      var prepared: seq<Public>;
      prepared, propagated := AssembleReport(natives, groups.value);
      ok := ValidatePrepared(prepared);
      report := if ok then Some(prepared) else None;
    }

    lemma Regroup(said: seq<Public>, group: seq<Public>, rest: seq<Public>)
      ensures said + (group + rest) == (said + group) + rest
    {
    }

    method AssembleReport(natives: seq<Native>, groups: seq<seq<Public>>) returns (prepared: seq<Public>, propagated: set<string>)
      ensures prepared == Report(Model(), natives, groups) && propagated == Propagated(Model(), natives)
    {
      prepared := [];
      propagated := set i | 0 <= i < |natives| && natives[i].id in childInterrupts :: natives[i].id;
      var next := 0;
      for i := 0 to |natives|
        invariant 0 <= next <= |groups|
        invariant Report(Model(), natives, groups) == prepared + Report(Model(), natives[i..], groups[next..])
      {
        assert natives[i..][0] == natives[i] && natives[i..][1..] == natives[i + 1..];
        ghost var said := prepared;
        if natives[i].id in childInterrupts {
          var group := childInterrupts[natives[i].id].prepared;
          Regroup(said, group, Report(Model(), natives[i + 1..], groups[next..]));
          prepared := prepared + group;
        } else if next < |groups| {
          assert groups[next..][0] == groups[next] && groups[next..][1..] == groups[next + 1..];
          Regroup(said, groups[next], Report(Model(), natives[i + 1..], groups[next + 1..]));
          prepared := prepared + groups[next];
          next := next + 1;
        }
      }
    }

    method RecordInterrupts(prepared: seq<Public>)
      modifies `interruptsById, `interruptsInOrder
      ensures (interruptsById, interruptsInOrder) == Record(old(interruptsById), old(interruptsInOrder), prepared)
    {
      for i := 0 to |prepared|
        invariant Record(old(interruptsById), old(interruptsInOrder), prepared) ==
                  Record(interruptsById, interruptsInOrder, prepared[i..])
      {
        assert prepared[i..][0] == prepared[i] && prepared[i..][1..] == prepared[i + 1..];
        if prepared[i].id !in interruptsById {
          interruptsById := interruptsById[prepared[i].id := prepared[i]];
          interruptsInOrder := interruptsInOrder + [prepared[i]];
        }
      }
    }

    method AcceptRootFrame(natives: seq<Native>, source: string, calls: Option<seq<seq<string>>>) returns (ok: bool)
      modifies `interruptsById, `interruptsInOrder, `resolvedIds
      ensures ok <==> Accept(old(Model()), Root(natives, source, calls)).Some?
      ensures Model() == Next(old(Model()), Root(natives, source, calls))
    {
      hide Projection, NewOnes, RootReport, Record, Propagated;
      var report, propagated := PrepareRootInterrupts(natives, source, calls);
      if report.None? {
        return false;
      }
      if report.value != [] {
        RecordInterrupts(report.value);
        resolvedIds := resolvedIds + propagated;
      }
      return true;
    }

    /** One frame of a run; a refused frame changes nothing. */
    method AcceptFrame(frame: Frame) returns (ok: bool)
      requires Ok(Model())
      modifies this
      ensures Ok(Model()) && Model() == Next(old(Model()), frame)
      ensures ok <==> Accept(old(Model()), frame).Some?
    {
      hide Ok, Accept, Next;
      ghost var before := Model();
      FrameKeepsOk(before, frame);
      match frame
      case Child(ns, natives, source, calls, messages) =>
        ok := BufferChildInterrupts(ns, natives, source, calls, messages);
      case Root(natives, source, calls) =>
        ok := AcceptRootFrame(natives, source, calls);
    }

    method Finish() returns (ok: bool)
      ensures ok == CanFinish(Model())
    {
      var unresolved := childInterrupts.Keys - resolvedIds;
      ok := unresolved == {};
      if childInterrupts.Keys <= resolvedIds {
        assert unresolved == {};
      } else {
        var id :| id in childInterrupts.Keys && id !in resolvedIds;
        assert id in unresolved;
      }
    }
  }
}
