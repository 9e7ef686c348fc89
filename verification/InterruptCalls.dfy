/**
 Which tool call a public request belongs to, read off the frame that brought it: the
 j-th new review of a frame owns the j-th group of calls, action by action. What is
 buffered and reported keeps this over every run.
 */
module InterruptCalls {
  import opened ByteFormats
  import opened InterruptFinish
  import opened InterruptRuns
  import opened Interrupts
  import opened Options

  // ---- What a public request must show ---------------------------------------

  /** The number of reviews. */
  function Reviews(natives: seq<Native>): nat {
    if natives == [] then 0 else (if natives[0].value.Review? then 1 else 0) + Reviews(natives[1..])
  }

  /** The request for action `k` of `n`, whose own calls are `own` when it is a review. */
  ghost predicate Shows(p: Public, n: Native, k: nat, source: string, own: seq<string>) {
    && p.id == (if n.Size() > 1 then n.id + "#" + Decimal(k) else n.id)
    && (if n.value.Review? then k < |own| && p.toolCall == Some(own[k]) else p.toolCall == None)
    && p.body == Body(if n.value.Other? then None else Some((n.id, k)), n.value, source)
  }

  ghost predicate GroupShows(group: seq<Public>, n: Native, source: string, own: seq<string>) {
    |group| == n.Size() && forall k | 0 <= k < |group| :: Shows(group[k], n, k, source, own)
  }

  /** The calls of the i-th request: those of its number among the reviews. */
  function Own(natives: seq<Native>, i: nat, calls: seq<seq<string>>): seq<string>
    requires i < |natives|
  {
    var j := Reviews(natives[..i]);
    if natives[i].value.Review? && j < |calls| then calls[j] else []
  }

  ghost predicate GroupsShow(groups: seq<seq<Public>>, natives: seq<Native>, source: string, calls: seq<seq<string>>) {
    |groups| == |natives| && forall i | 0 <= i < |natives| :: GroupShows(groups[i], natives[i], source, Own(natives, i, calls))
  }

  // ---- One projection --------------------------------------------------------

  ghost predicate Distinct(calls: seq<string>) { forall i, j | 0 <= i < j < |calls| :: calls[i] != calls[j] }

  /** Every review has one call for each of its actions, none twice. */
  ghost predicate CallsFit(natives: seq<Native>, calls: seq<seq<string>>) {
    forall i | 0 <= i < |natives| && natives[i].value.Review? ::
      |Own(natives, i, calls)| == natives[i].Size() && Distinct(Own(natives, i, calls))
  }

  function After(n: Native, calls: seq<seq<string>>): seq<seq<string>> {
    if n.value.Review? && calls != [] then calls[1..] else calls
  }

  lemma OwnLater(natives: seq<Native>, i: nat, calls: seq<seq<string>>)
    requires 0 < i < |natives| && (natives[0].value.Review? ==> calls != [])
    ensures Own(natives, i, calls) == Own(natives[1..], i - 1, After(natives[0], calls))
  {
    assert natives[..i][1..] == natives[1..][..i - 1];
  }

  lemma OwnFirst(natives: seq<Native>, calls: seq<seq<string>>)
    requires natives != []
    ensures Own(natives, 0, calls) == if natives[0].value.Review? && calls != [] then calls[0] else []
  {
    assert natives[..0] == [];
  }

  lemma CallsFitStep(natives: seq<Native>, calls: seq<seq<string>>)
    requires natives != []
    ensures CallsFit(natives, calls) <==>
            && (natives[0].value.Review? ==> calls != [] && |calls[0]| == natives[0].Size() && Distinct(calls[0]))
            && CallsFit(natives[1..], After(natives[0], calls))
  {
    var n, rest, more := natives[0], natives[1..], After(natives[0], calls);
    hide Distinct, Reviews, Own, After;
    OwnFirst(natives, calls);
    if n.value.Review? ==> calls != [] {
      forall i | 0 < i < |natives| ensures Own(natives, i, calls) == Own(rest, i - 1, more) && natives[i] == rest[i - 1] {
        OwnLater(natives, i, calls);
      }
      FitRest(natives, calls, rest, more);
    } else {
      assert natives[0].value.Review? && Own(natives, 0, calls) == [];
    }
  }

  lemma FitRest(natives: seq<Native>, calls: seq<seq<string>>, rest: seq<Native>, more: seq<seq<string>>)
    requires natives != [] && |rest| == |natives| - 1
    requires forall i | 0 < i < |natives| :: Own(natives, i, calls) == Own(rest, i - 1, more) && natives[i] == rest[i - 1]
    ensures CallsFit(natives, calls) <==>
            && (natives[0].value.Review? ==> |Own(natives, 0, calls)| == natives[0].Size() && Distinct(Own(natives, 0, calls)))
            && CallsFit(rest, more)
  {
    hide Distinct, Own;
    if CallsFit(natives, calls) {
      forall i | 0 <= i < |rest| && rest[i].value.Review?
        ensures |Own(rest, i, more)| == rest[i].Size() && Distinct(Own(rest, i, more))
      {
        assert Own(natives, i + 1, calls) == Own(rest, i + 1 - 1, more);
      }
    }
  }

  lemma {:induction false} ProjectAllIff(natives: seq<Native>, source: string, calls: seq<seq<string>>)
    ensures ProjectAll(natives, source, calls).Some? <==> CallsFit(natives, calls)
    decreases |natives|
  {
    if natives != [] {
      CallsFitStep(natives, calls);
      ProjectAllIff(natives[1..], source, After(natives[0], calls));
      hide CallsFit;
    }
  }

  lemma OneShows(n: Native, source: string, calls: seq<string>)
    requires n.value.Review? ==> |calls| == n.Size()
    ensures GroupShows(ProjectOne(n, source, calls), n, source, calls)
  {
  }

  lemma ProjectAllStep(natives: seq<Native>, source: string, calls: seq<seq<string>>)
    requires natives != [] && ProjectAll(natives, source, calls).Some?
    ensures natives[0].value.Review? ==> calls != [] && |calls[0]| == natives[0].Size()
    ensures var n := natives[0];
            var rest := ProjectAll(natives[1..], source, After(n, calls));
            rest.Some? && ProjectAll(natives, source, calls) ==
            Some(ProjectOne(n, source, if n.value.Review? then calls[0] else []) + rest.value)
  {
  }

  lemma ShowMore(natives: seq<Native>, source: string, calls: seq<seq<string>>, group: seq<Public>, groups: seq<seq<Public>>)
    requires natives != [] && (natives[0].value.Review? ==> calls != [])
    requires GroupShows(group, natives[0], source, Own(natives, 0, calls))
    requires GroupsShow(groups, natives[1..], source, After(natives[0], calls))
    ensures GroupsShow([group] + groups, natives, source, calls)
  {
    hide GroupShows, Own, After;
    forall i | 0 <= i < |natives| ensures GroupShows(([group] + groups)[i], natives[i], source, Own(natives, i, calls)) {
      if i > 0 { OwnLater(natives, i, calls); }
    }
  }

  lemma {:induction false} ProjectAllShows(natives: seq<Native>, source: string, calls: seq<seq<string>>)
    requires ProjectAll(natives, source, calls).Some?
    ensures var prepared := ProjectAll(natives, source, calls).value;
            && Grouped(natives, prepared).Some? && Flat(Grouped(natives, prepared).value) == prepared
            && GroupsShow(Grouped(natives, prepared).value, natives, source, calls)
    decreases |natives|
  {
    if natives != [] {
      var n, own := natives[0], if natives[0].value.Review? && calls != [] then calls[0] else [];
      ProjectAllStep(natives, source, calls);
      OneShows(n, source, own);
      ProjectAllShows(natives[1..], source, After(n, calls));
      var group, rest := ProjectOne(n, source, own), ProjectAll(natives[1..], source, After(n, calls)).value;
      OwnFirst(natives, calls);
      hide ProjectAll, ProjectOne, GroupShows, GroupsShow, Own, After;
      ShowMore(natives, source, calls, group, Grouped(natives[1..], rest).value);
      assert (group + rest)[..n.Size()] == group && (group + rest)[n.Size()..] == rest;
      GroupedStep(natives, group + rest);
      assert ([group] + Grouped(natives[1..], rest).value)[1..] == Grouped(natives[1..], rest).value;
    }
  }

  /** When new requests can be projected: with one group of distinct calls for each review, action by action. */
  lemma ProjectionSucceedsIff(natives: seq<Native>, source: string, calls: Option<seq<seq<string>>>)
    ensures Projection(natives, source, calls).Some? <==>
            && (forall i | 0 <= i < |natives| :: !natives[i].value.Broken?)
            && ((exists i :: 0 <= i < |natives| && natives[i].value.Review?) ==>
                 calls.Some? && forall i | 0 <= i < |natives| :: !natives[i].value.Runtime?)
            && CallsFit(natives, calls.GetOr([]))
  {
    ProjectAllIff(natives, source, calls.GetOr([]));
    hide CallsFit, ProjectAll;
  }

  /** And then action `k` of the j-th review gets call `k` of the j-th group, and no other request gets a call. */
  lemma ProjectionShowsItsCalls(natives: seq<Native>, source: string, calls: Option<seq<seq<string>>>, prepared: seq<Public>)
    requires Projection(natives, source, calls) == Some(prepared)
    ensures exists groups :: Flat(groups) == prepared && GroupsShow(groups, natives, source, calls.GetOr([]))
  {
    ProjectAllShows(natives, source, calls.GetOr([]));
  }

  // ---- The new requests of a frame -------------------------------------------

  /** The number of reviews that are not buffered yet. */
  function NewReviews(b: Book, natives: seq<Native>): nat {
    if natives == [] then 0
    else (if natives[0].value.Review? && natives[0].id !in b.interrupts then 1 else 0) + NewReviews(b, natives[1..])
  }

  /** The calls of the i-th request of a frame: those of its number among the new reviews. */
  function OwnNew(b: Book, natives: seq<Native>, i: nat, calls: seq<seq<string>>): seq<string>
    requires i < |natives|
  {
    var j := NewReviews(b, natives[..i]);
    if natives[i].value.Review? && j < |calls| then calls[j] else []
  }

  lemma {:induction false} NewAt(b: Book, natives: seq<Native>, i: nat)
    requires i < |natives| && natives[i].id !in b.interrupts
    ensures var j, unseen := |NewOnes(b, natives[..i])|, NewOnes(b, natives);
            j < |unseen| && unseen[j] == natives[i] && unseen[..j] == NewOnes(b, natives[..i])
    decreases |natives|
  {
    NewOnesStep(b, natives);
    if i > 0 {
      NewAt(b, natives[1..], i - 1);
      assert natives[..i][1..] == natives[1..][..i - 1];
      NewOnesStep(b, natives[..i]);
      hide NewOnes;
      var head, unseen, j := if natives[0].id in b.interrupts then [] else [natives[0]], NewOnes(b, natives[1..]), |NewOnes(b, natives[1..][..i - 1])|;
      assert (head + unseen)[..|head| + j] == head + unseen[..j];
    }
  }

  lemma {:induction false} ReviewsOfNew(b: Book, natives: seq<Native>)
    ensures Reviews(NewOnes(b, natives)) == NewReviews(b, natives)
    decreases |natives|
  {
    if natives != [] {
      ReviewsOfNew(b, natives[1..]);
      var unseen := NewOnes(b, natives[1..]);
      assert [] + unseen == unseen && ([natives[0]] + unseen)[1..] == unseen;
    }
  }

  lemma OwnOfNew(b: Book, natives: seq<Native>, i: nat, calls: seq<seq<string>>)
    requires i < |natives| && natives[i].id !in b.interrupts
    ensures var j := |NewOnes(b, natives[..i])|;
            j < |NewOnes(b, natives)| && NewOnes(b, natives)[j] == natives[i]
            && Own(NewOnes(b, natives), j, calls) == OwnNew(b, natives, i, calls)
  {
    NewAt(b, natives, i);
    ReviewsOfNew(b, natives[..i]);
  }

  /** Native request `i` of a frame is new to `b`, and `p` is its public request for action `k`. */
  ghost predicate Brought(b: Book, frame: Frame, i: nat, k: nat, p: Public) {
    && i < |frame.natives| && frame.natives[i].id !in b.interrupts && k < frame.natives[i].Size()
    && Shows(p, frame.natives[i], k, frame.source, OwnNew(b, frame.natives, i, frame.calls.GetOr([])))
  }

  // ---- Child frames ----------------------------------------------------------

  lemma UntouchedByOthers(interrupts: map<string, Buffered>, order: seq<string>, ns: Namespace, natives: seq<Native>,
                          groups: seq<seq<Public>>, id: string)
    requires DistinctIds(natives) && |groups| == NewIn(interrupts, natives) && Ordered(interrupts, order)
    requires id in interrupts && !Mentions(natives, id)
    ensures var after := Staged(interrupts, order, ns, natives, groups).0; id in after && after[id] == interrupts[id]
  {
    StagedEntries(interrupts, order, ns, natives, groups);
    assert StagedEntry(interrupts, Staged(interrupts, order, ns, natives, groups).0, ns, Mentions(natives, id), id);
  }

  lemma OrderedMore(b: Book, order: seq<string>, n: Native, entry: Buffered)
    requires Ordered(b.interrupts, order)
    ensures Ordered(b.interrupts[n.id := entry], if n.id in b.interrupts then order else order + [n.id])
  {
    assert forall id :: id in order + [n.id] <==> id in order || id == n.id;
  }

  lemma NewInFirst(b: Book, natives: seq<Native>)
    requires natives != []
    ensures NewIn(b.interrupts, natives) == (if natives[0].id in b.interrupts then 0 else 1) + NewIn(b.interrupts, natives[1..])
  {
  }

  lemma NewInOthers(b: Book, next: map<string, Buffered>, natives: seq<Native>, i: nat)
    requires SameKnown(b.interrupts, next, natives) && i <= |natives|
    ensures NewIn(next, natives) == NewIn(b.interrupts, natives) && NewIn(next, natives[..i]) == NewIn(b.interrupts, natives[..i])
  {
    NewInStays(b.interrupts, next, natives);
    NewInStays(b.interrupts, next, natives[..i]);
  }

  /** Each new request is stored with the group of its number. */
  lemma {:induction false} StagedGroup(b: Book, order: seq<string>, ns: Namespace, natives: seq<Native>,
                                       groups: seq<seq<Public>>, i: nat)
    requires DistinctIds(natives) && |groups| == NewIn(b.interrupts, natives) && Ordered(b.interrupts, order)
    requires i < |natives| && natives[i].id !in b.interrupts
    ensures var after, j := Staged(b.interrupts, order, ns, natives, groups).0, NewIn(b.interrupts, natives[..i]);
            && natives[i].id in after && j < |groups|
            && after[natives[i].id] == Buffered(natives[i].id, natives[i].value, groups[j], [ns])
    decreases |natives|
  {
    var n, rest := natives[0], natives[1..];
    var known := n.id in b.interrupts;
    NewInFirst(b, natives);
    if i > 0 {
      NewInFirst(b, natives[..i]);
      assert natives[..i][1..] == rest[..i - 1];
    }
    DistinctRest(natives);
    assert rest[..] == rest;
    hide *;
    var entry := EntryFor(b, ns, n, groups);
    var next := b.(interrupts := b.interrupts[n.id := entry]);
    var more := if known then groups else groups[1..];
    OneStep(b, order, ns, natives, groups);
    OthersKnown(b.interrupts, entry, n, rest);
    OrderedMore(b, order, n, entry);
    if i == 0 {
      NewInOthers(b, next.interrupts, rest, 0);
      FirstEntry(b, ns, n, groups);
      NoneBefore(b, natives);
      NotMentioned(rest, n.id);
      UntouchedByOthers(next.interrupts, if known then order else order + [n.id], ns, rest, more, n.id);
    } else {
      NewInOthers(b, next.interrupts, rest, i - 1);
      assert rest[i - 1] == natives[i];
      StagedGroup(next, if known then order else order + [n.id], ns, rest, more, i - 1);
    }
  }

  lemma FirstEntry(b: Book, ns: Namespace, n: Native, groups: seq<seq<Public>>)
    requires n.id !in b.interrupts && groups != []
    ensures EntryFor(b, ns, n, groups) == Buffered(n.id, n.value, groups[0], [ns])
  {
  }

  lemma NoneBefore(b: Book, natives: seq<Native>)
    ensures NewIn(b.interrupts, natives[..0]) == 0
  {
  }

  lemma NotMentioned(natives: seq<Native>, id: string)
    requires forall i | 0 <= i < |natives| :: natives[i].id != id
    ensures !Mentions(natives, id)
  {
  }

  /** An accepted child frame buffers each new request, with the calls of its own number. */
  lemma ChildFrameBuffers(b: Book, frame: Frame, i: nat)
    requires Ok(b) && frame.Child? && Accept(b, frame).Some?
    requires i < |frame.natives| && frame.natives[i].id !in b.interrupts
    ensures var n, after := frame.natives[i], Next(b, frame).interrupts;
            && n.id in after && after[n.id].value == n.value && after[n.id].namespaces == [frame.ns]
            && |after[n.id].prepared| == n.Size()
            && forall k | 0 <= k < n.Size() :: Brought(b, frame, i, k, after[n.id].prepared[k])
  {
    var natives, calls := frame.natives, frame.calls.GetOr([]);
    var unseen := NewOnes(b, natives);
    ProjectAllShows(unseen, frame.source, calls);
    var groups := Grouped(unseen, Projection(unseen, frame.source, frame.calls).value).value;
    NewOnesCount(b, natives);
    NewOnesCount(b, natives[..i]);
    OwnOfNew(b, natives, i, calls);
    assert Ordered(b.interrupts, b.order);
    StagedGroup(b, b.order, frame.ns, natives, groups, i);
    assert Next(b, frame).interrupts == Staged(b.interrupts, b.order, frame.ns, natives, groups).0;
    hide *;
    GroupAt(groups, unseen, frame.source, calls, |NewOnes(b, natives[..i])|);
    GroupBrought(b, frame, i, groups[|NewOnes(b, natives[..i])|]);
  }

  lemma GroupAt(groups: seq<seq<Public>>, natives: seq<Native>, source: string, calls: seq<seq<string>>, i: nat)
    requires GroupsShow(groups, natives, source, calls) && i < |natives|
    ensures |groups| == |natives| && GroupShows(groups[i], natives[i], source, Own(natives, i, calls))
  {
  }

  lemma GroupBrought(b: Book, frame: Frame, i: nat, group: seq<Public>)
    requires i < |frame.natives| && frame.natives[i].id !in b.interrupts
    requires GroupShows(group, frame.natives[i], frame.source, OwnNew(b, frame.natives, i, frame.calls.GetOr([])))
    ensures |group| == frame.natives[i].Size() && forall k | 0 <= k < |group| :: Brought(b, frame, i, k, group[k])
  {
    hide OwnNew;
  }

  /** And what it buffered stays so in every later run. */
  lemma BufferedForGood(b: Book, frame: Frame, i: nat, later: seq<Frame>)
    requires Ok(b) && frame.Child? && Accept(b, frame).Some?
    requires i < |frame.natives| && frame.natives[i].id !in b.interrupts
    ensures var n, after := frame.natives[i], RunAll(Next(b, frame), later).interrupts;
            && n.id in after && after[n.id].value == n.value && |after[n.id].prepared| == n.Size()
            && forall k | 0 <= k < n.Size() :: Brought(b, frame, i, k, after[n.id].prepared[k])
  {
    ChildFrameBuffers(b, frame, i);
    FrameKeepsOk(b, frame);
    RequestsNeverChange(Next(b, frame), later, frame.natives[i].id);
    hide Ok, Next, Accept, Brought;
  }

  lemma {:induction false} PreparedStays(before: map<string, Buffered>, after: map<string, Buffered>, order: seq<string>)
    requires forall id | id in order :: id in before && id in after && after[id].prepared == before[id].prepared
    ensures Prepared(after, order) == Prepared(before, order)
    decreases |order|
  {
    if order != [] { PreparedStays(before, after, order[1..]); }
  }

  lemma {:induction false} PreparedOfMore(interrupts: map<string, Buffered>, order: seq<string>, id: string)
    requires id in interrupts
    ensures Prepared(interrupts, order + [id]) == Prepared(interrupts, order) + interrupts[id].prepared
    decreases |order|
  {
    var all := order + [id];
    if order == [] {
      assert all[1..] == [] && Prepared(interrupts, all[1..]) == [];
      assert interrupts[id].prepared + [] == interrupts[id].prepared && [] + interrupts[id].prepared == interrupts[id].prepared;
    } else {
      assert all[1..] == order[1..] + [id] && all[0] == order[0];
      PreparedOfMore(interrupts, order[1..], id);
    }
  }

  lemma EntryPrepared(b: Book, order: seq<string>, ns: Namespace, n: Native, groups: seq<seq<Public>>)
    requires Ordered(b.interrupts, order) && (n.id !in b.interrupts ==> groups != [])
    ensures var next := b.interrupts[n.id := EntryFor(b, ns, n, groups)];
            if n.id in b.interrupts then Prepared(next, order) == Prepared(b.interrupts, order)
            else Prepared(next, order + [n.id]) == Prepared(b.interrupts, order) + groups[0]
  {
    var next := b.interrupts[n.id := EntryFor(b, ns, n, groups)];
    PreparedStays(b.interrupts, next, order);
    PreparedOfMore(next, order, n.id);
  }

  lemma FlatFirst(groups: seq<seq<Public>>, before: seq<Public>)
    requires groups != []
    ensures before + groups[0] + Flat(groups[1..]) == before + Flat(groups)
  {
  }

  /** Staging adds the groups behind everything prepared so far. */
  lemma {:induction false} StagedPrepared(b: Book, order: seq<string>, ns: Namespace, natives: seq<Native>, groups: seq<seq<Public>>)
    requires DistinctIds(natives) && |groups| == NewIn(b.interrupts, natives) && Ordered(b.interrupts, order)
    ensures var (after, ids) := Staged(b.interrupts, order, ns, natives, groups);
            Prepared(after, ids) == Prepared(b.interrupts, order) + Flat(groups)
    decreases |natives|
  {
    if natives != [] {
      var n, rest := natives[0], natives[1..];
      var known := n.id in b.interrupts;
      NewInFirst(b, natives);
      DistinctRest(natives);
      hide *;
      var entry := EntryFor(b, ns, n, groups);
      var next := b.(interrupts := b.interrupts[n.id := entry]);
      OneStep(b, order, ns, natives, groups);
      OthersKnown(b.interrupts, entry, n, rest);
      OrderedMore(b, order, n, entry);
      NewInOthers(b, next.interrupts, rest, 0);
      EntryPrepared(b, order, ns, n, groups);
      StagedPrepared(next, if known then order else order + [n.id], ns, rest, if known then groups else groups[1..]);
      if !known { FlatFirst(groups, Prepared(b.interrupts, order)); }
    }
  }

  /** The proposal of a call in a list of messages: the last one counts. */
  function LastProposal(messages: seq<Message>, call: string): Option<(string, Call)> {
    if messages == [] then None
    else
      var last := messages[|messages| - 1];
      var found := LastCall(last.calls, call);
      if found.Some? then Some((last.id, found.value)) else LastProposal(messages[..|messages| - 1], call)
  }

  function LastCall(calls: seq<Call>, call: string): Option<Call> {
    if calls == [] then None
    else if calls[|calls| - 1].id == call then Some(calls[|calls| - 1])
    else LastCall(calls[..|calls| - 1], call)
  }

  lemma LastOfMore(first: Call, rest: seq<Call>, call: string)
    ensures LastCall([first] + rest, call) ==
            if LastCall(rest, call).Some? then LastCall(rest, call) else if first.id == call then Some(first) else None
    decreases |rest|
  {
    var all := [first] + rest;
    if rest == [] {
      assert all[..0] == [];
    } else {
      assert all[..|all| - 1] == [first] + rest[..|rest| - 1];
      LastOfMore(first, rest[..|rest| - 1], call);
    }
  }

  function Known(proposals: map<string, (string, Call)>, call: string): Option<(string, Call)> {
    if call in proposals then Some(proposals[call]) else None
  }

  lemma {:induction false} AddCallsKnown(known: map<string, (string, Call)>, message: string, calls: seq<Call>, call: string)
    ensures Known(AddCalls(known, message, calls), call) ==
            if LastCall(calls, call).Some? then Some((message, LastCall(calls, call).value)) else Known(known, call)
    decreases |calls|
  {
    if calls != [] {
      AddCallsKnown(known[calls[0].id := (message, calls[0])], message, calls[1..], call);
      LastOfMore(calls[0], calls[1..], call);
      assert [calls[0]] + calls[1..] == calls;
    }
  }

  lemma {:induction false} ProposalsKnown(messages: seq<Message>, call: string)
    ensures Known(Proposals(messages), call) == LastProposal(messages, call)
    decreases |messages|
  {
    if messages != [] {
      ProposalsKnown(messages[..|messages| - 1], call);
      AddCallsKnown(Proposals(messages[..|messages| - 1]), messages[|messages| - 1].id, messages[|messages| - 1].calls, call);
      hide AddCalls, LastCall;
    }
  }

  /** No call that waits for a decision in the namespace has another proposal than before. */
  ghost predicate WaitingUnchanged(b: Book, ns: Namespace, messages: seq<Message>) {
    ns in b.snapshots ==>
      forall id, k, call |
        ns in b.rows && id in b.rows[ns] && id in b.interrupts && 0 <= k < |b.interrupts[id].prepared|
        && b.interrupts[id].prepared[k].toolCall == Some(call) && LastProposal(b.snapshots[ns], call).Some? ::
          LastProposal(messages, call) == LastProposal(b.snapshots[ns], call)
  }

  lemma ProposalsStayIff(b: Book, ns: Namespace, messages: seq<Message>)
    ensures ProposalsStay(b, ns, messages) <==> WaitingUnchanged(b, ns, messages)
  {
    if ns in b.snapshots {
      var before, now := Proposals(b.snapshots[ns]), Proposals(messages);
      forall call
        ensures call in before <==> LastProposal(b.snapshots[ns], call).Some?
        ensures call in before ==>
                (call in now && now[call] == before[call] <==> LastProposal(messages, call) == LastProposal(b.snapshots[ns], call))
      {
        ProposalsKnown(b.snapshots[ns], call);
        ProposalsKnown(messages, call);
      }
      hide Proposals, LastProposal;
      if WaitingUnchanged(b, ns, messages) {
        forall call | call in before && Waits(b, ns, call) ensures call in now && now[call] == before[call] {
          var id, k :| id in Row(b, ns) && id in b.interrupts && 0 <= k < |b.interrupts[id].prepared|
                       && b.interrupts[id].prepared[k].toolCall == Some(call);
        }
      }
      if ProposalsStay(b, ns, messages) {
        forall id, k, call |
          ns in b.rows && id in b.rows[ns] && id in b.interrupts && 0 <= k < |b.interrupts[id].prepared|
          && b.interrupts[id].prepared[k].toolCall == Some(call) && LastProposal(b.snapshots[ns], call).Some?
          ensures LastProposal(messages, call) == LastProposal(b.snapshots[ns], call)
        {
          assert Waits(b, ns, call);
        }
      }
    }
  }

  /** Each request has an ID of its own, and one that is buffered its value. */
  ghost predicate IdsFit(b: Book, natives: seq<Native>) {
    && (forall i, j | 0 <= i < j < |natives| :: natives[i].id != natives[j].id)
    && (forall i | 0 <= i < |natives| && natives[i].id in b.interrupts :: b.interrupts[natives[i].id].value == natives[i].value)
  }

  /** A buffered request comes again from its own namespaces, or from one that contains or lies in each of them. */
  ghost predicate PlacesFit(b: Book, ns: Namespace, natives: seq<Native>) {
    forall i, m | 0 <= i < |natives| && natives[i].id in b.interrupts && ns !in b.interrupts[natives[i].id].namespaces
                  && m in b.interrupts[natives[i].id].namespaces :: m <= ns || ns <= m
  }

  /** Public requests with IDs of their own that contradict no report. */
  ghost predicate PublicsFit(publics: seq<Public>, recorded: map<string, Public>) {
    && (forall i, j | 0 <= i < j < |publics| :: publics[i].id != publics[j].id)
    && (forall p | p in publics && p.id in recorded :: recorded[p.id] == p)
  }

  lemma PublicsFitIff(publics: seq<Public>, recorded: map<string, Public>)
    ensures PublicsFit(publics, recorded) <==> Publishable(publics, recorded)
  {
  }

  lemma AdmissibleIff(b: Book, ns: Namespace, natives: seq<Native>)
    ensures Admissible(b, ns, natives) <==> IdsFit(b, natives) && PlacesFit(b, ns, natives)
  {
  }

  /**
   When a child frame is accepted: every request fits what is known of it, the new ones can be projected, no public ID is
   taken twice or contradicts a report, and no call with a pending decision has another proposal.
   */
  lemma ChildIsAcceptedIff(b: Book, frame: Frame)
    requires Ok(b) && frame.Child?
    ensures Accept(b, frame).Some? <==>
            || frame.natives == []
            || (&& IdsFit(b, frame.natives) && PlacesFit(b, frame.ns, frame.natives) && WaitingUnchanged(b, frame.ns, frame.messages)
                && exists prepared ::
                     Projection(NewOnes(b, frame.natives), frame.source, frame.calls) == Some(prepared)
                     && PublicsFit(Prepared(b.interrupts, b.order) + prepared, b.recorded))
  {
    var natives := frame.natives;
    var projected := Projection(NewOnes(b, natives), frame.source, frame.calls);
    AdmissibleIff(b, frame.ns, natives);
    ProposalsStayIff(b, frame.ns, frame.messages);
    hide IdsFit, PlacesFit, WaitingUnchanged, PublicsFit;
    if natives != [] && Admissible(b, frame.ns, natives) && projected.Some? {
      ProjectAllShows(NewOnes(b, natives), frame.source, frame.calls.GetOr([]));
      NewOnesCount(b, natives);
      var groups := Grouped(NewOnes(b, natives), projected.value).value;
      assert |groups| == NewIn(b.interrupts, natives);
      assert Ordered(b.interrupts, b.order) && DistinctIds(natives);
      hide Ok, Admissible, Projection, Grouped, GroupsShow, Staged, Prepared, ProposalsStay, NewOnes, NewIn;
      StagedPrepared(b, b.order, frame.ns, natives, groups);
      LastPublishable(Prepared(b.interrupts, b.order), projected.value, b.recorded);
      PublicsFitIff(Prepared(b.interrupts, b.order) + projected.value, b.recorded);
    }
  }

  lemma LastPublishable(first: seq<Public>, last: seq<Public>, recorded: map<string, Public>)
    ensures Publishable(first + last, recorded) ==> Publishable(last, recorded)
  {
    if Publishable(first + last, recorded) {
      assert forall i | 0 <= i < |last| :: (first + last)[|first| + i] == last[i];
    }
  }

  // ---- Root frames -----------------------------------------------------------

  /** The public requests of one native request in a report. */
  ghost predicate ReportsOne(b: Book, frame: Frame, i: nat, group: seq<Public>)
    requires i < |frame.natives|
  {
    var n := frame.natives[i];
    if n.id in b.interrupts then group == b.interrupts[n.id].prepared
    else |group| == n.Size() && forall k | 0 <= k < |group| :: Brought(b, frame, i, k, group[k])
  }

  /** One group for each request of the frame, in order. */
  ghost predicate ReportsAll(b: Book, frame: Frame, groups: seq<seq<Public>>) {
    |groups| == |frame.natives| && forall i | 0 <= i < |frame.natives| :: ReportsOne(b, frame, i, groups[i])
  }

  /** The groups of a report, as `Report` lists them. */
  function Listing(b: Book, natives: seq<Native>, groups: seq<seq<Public>>): (all: seq<seq<Public>>)
    requires |groups| == NewIn(b.interrupts, natives)
    ensures |all| == |natives|
    ensures Report(b, natives, groups) == Flat(all)
    decreases |natives|
  {
    if natives == [] then []
    else if natives[0].id in b.interrupts then
      var rest := Listing(b, natives[1..], groups);
      assert ([b.interrupts[natives[0].id].prepared] + rest)[1..] == rest;
      [b.interrupts[natives[0].id].prepared] + rest
    else
      var rest := Listing(b, natives[1..], groups[1..]);
      assert ([groups[0]] + rest)[1..] == rest;
      [groups[0]] + rest
  }

  lemma {:induction false} ListingAt(b: Book, natives: seq<Native>, groups: seq<seq<Public>>, i: nat)
    requires |groups| == NewIn(b.interrupts, natives) && i < |natives|
    ensures natives[i].id in b.interrupts ==> Listing(b, natives, groups)[i] == b.interrupts[natives[i].id].prepared
    ensures natives[i].id !in b.interrupts ==>
            var j := NewIn(b.interrupts, natives[..i]); j < |groups| && Listing(b, natives, groups)[i] == groups[j]
    decreases |natives|
  {
    if i > 0 {
      assert natives[..i][1..] == natives[1..][..i - 1];
      ListingAt(b, natives[1..], if natives[0].id in b.interrupts then groups else groups[1..], i - 1);
    }
  }

  lemma {:induction false} RecordIsMerge(recorded: map<string, Public>, reported: seq<Public>, prepared: seq<Public>)
    requires Publishable(prepared, recorded)
    requires forall id | id in recorded :: recorded[id].id == id && recorded[id] in reported
    requires forall p | p in reported :: RecordedAs(recorded, p)
    ensures Record(recorded, reported, prepared).1 == Merge(reported, prepared)
    decreases |prepared|
  {
    if prepared != [] {
      var p, rest := prepared[0], prepared[1..];
      assert p in reported <==> p.id in recorded;
      if p.id in recorded {
        RecordIsMerge(recorded, reported, rest);
      } else {
        assert Publishable(rest, recorded[p.id := p]) by {
          forall i | 0 <= i < |rest| ensures rest[i].id != p.id { assert prepared[i + 1] == rest[i]; }
        }
        RecordIsMerge(recorded[p.id := p], reported + [p], rest);
      }
    }
  }

  lemma ReportsOneIs(b: Book, frame: Frame, i: nat, group: seq<Public>)
    requires i < |frame.natives|
    requires if frame.natives[i].id in b.interrupts then group == b.interrupts[frame.natives[i].id].prepared
             else |group| == frame.natives[i].Size() && forall k | 0 <= k < |group| :: Brought(b, frame, i, k, group[k])
    ensures ReportsOne(b, frame, i, group)
  {
  }

  lemma ListingReports(b: Book, frame: Frame, found: seq<seq<Public>>)
    requires |found| == NewIn(b.interrupts, frame.natives)
    requires GroupsShow(found, NewOnes(b, frame.natives), frame.source, frame.calls.GetOr([]))
    ensures ReportsAll(b, frame, Listing(b, frame.natives, found))
  {
    var natives, groups := frame.natives, Listing(b, frame.natives, found);
    hide ReportsOne, GroupsShow, NewOnes, NewIn, OwnNew, Own;
    forall i | 0 <= i < |natives| ensures ReportsOne(b, frame, i, groups[i]) {
      ListingAt(b, natives, found, i);
      hide *;
      NewOnesCount(b, natives[..i]);
      if natives[i].id !in b.interrupts {
        OwnOfNew(b, natives, i, frame.calls.GetOr([]));
        GroupAt(found, NewOnes(b, natives), frame.source, frame.calls.GetOr([]), |NewOnes(b, natives[..i])|);
        GroupBrought(b, frame, i, groups[i]);
      }
      ReportsOneIs(b, frame, i, groups[i]);
    }
  }

  lemma ReportIsRecorded(b: Book, natives: seq<Native>, projected: Option<seq<Public>>, report: seq<Public>)
    requires Ok(b) && RootReport(b, natives, projected) == Some(report)
    ensures var after := AcceptRoot(b, natives, projected).value;
            && after.reported == Merge(b.reported, report) && after.interrupts == b.interrupts
            && forall p | p in report :: RecordedAs(after.recorded, p)
  {
    hide RowsOk, EntryOk, Grouped, Report, NewOnes;
    assert Publishable(report, b.recorded);
    hide RootReport;
    RecordIsMerge(b.recorded, b.reported, report);
    RecordKeeps(b.recorded, b.reported, report);
  }

  /**
   An accepted root frame reports, in the order of its requests, what was prepared for the buffered ones and each new one
   with the calls of its own number; what was not reported before is added to the report in this order.
   */
  lemma RootFrameReports(b: Book, frame: Frame) returns (groups: seq<seq<Public>>)
    requires Ok(b) && frame.Root? && Accept(b, frame).Some?
    ensures ReportsAll(b, frame, groups)
    ensures Next(b, frame).reported == Merge(b.reported, Flat(groups)) && Next(b, frame).interrupts == b.interrupts
    ensures forall p | p in Flat(groups) :: RecordedAs(Next(b, frame).recorded, p)
  {
    var natives, unseen := frame.natives, NewOnes(b, frame.natives);
    var projected := Projection(unseen, frame.source, frame.calls);
    ProjectAllShows(unseen, frame.source, frame.calls.GetOr([]));
    var found := Grouped(unseen, projected.value).value;
    NewOnesCount(b, natives);
    assert RootReport(b, natives, projected) == Some(Report(b, natives, found));
    assert |found| == NewIn(b.interrupts, natives);
    hide Ok, RootReport, Projection, Grouped, GroupsShow, NewOnes, NewIn, Report, ReportsAll, AcceptRoot;
    groups := Listing(b, natives, found);
    ListingReports(b, frame, found);
    ReportIsRecorded(b, natives, projected, Flat(groups));
  }

  lemma BroughtOnce(b: Book, frame: Frame, i: nat, k: nat, p: Public, q: Public)
    requires Brought(b, frame, i, k, p) && Brought(b, frame, i, k, q)
    ensures p == q
  {
  }

  lemma ReportIsUnique(b: Book, frame: Frame, groups: seq<seq<Public>>, others: seq<seq<Public>>)
    requires ReportsAll(b, frame, groups) && ReportsAll(b, frame, others)
    ensures groups == others
  {
    forall i | 0 <= i < |groups| ensures groups[i] == others[i] {
      assert ReportsOne(b, frame, i, groups[i]) && ReportsOne(b, frame, i, others[i]);
      if frame.natives[i].id !in b.interrupts {
        forall k | 0 <= k < |groups[i]| ensures groups[i][k] == others[i][k] {
          BroughtOnce(b, frame, i, k, groups[i][k], others[i][k]);
        }
      }
    }
  }

  lemma RepeatableIff(b: Book, natives: seq<Native>)
    ensures Repeatable(b, natives) <==> IdsFit(b, natives)
  {
  }

  /** When a root frame is accepted: its own requests can be projected, and they and everything it reports fit what was reported. */
  lemma RootIsAcceptedIff(b: Book, frame: Frame)
    requires frame.Root?
    ensures Accept(b, frame).Some? <==>
            && IdsFit(b, frame.natives)
            && exists prepared, groups ::
                 && Projection(NewOnes(b, frame.natives), frame.source, frame.calls) == Some(prepared)
                 && ReportsAll(b, frame, groups)
                 && PublicsFit(prepared, b.recorded) && PublicsFit(Flat(groups), b.recorded)
  {
    var natives, unseen := frame.natives, NewOnes(b, frame.natives);
    var projected := Projection(unseen, frame.source, frame.calls);
    RepeatableIff(b, natives);
    if projected.Some? {
      ProjectAllShows(unseen, frame.source, frame.calls.GetOr([]));
      var found := Grouped(unseen, projected.value).value;
      NewOnesCount(b, natives);
      assert |found| == NewIn(b.interrupts, natives);
      hide Projection, GroupsShow, NewOnes, NewIn, Report, ReportsAll, IdsFit, Repeatable, PublicsFit, Publishable;
      var groups := Listing(b, natives, found);
      ListingReports(b, frame, found);
      PublicsFitIff(projected.value, b.recorded);
      PublicsFitIff(Flat(groups), b.recorded);
      forall others | ReportsAll(b, frame, others) ensures others == groups { ReportIsUnique(b, frame, groups, others); }
    }
  }

  /** Every public request of such a report stays recorded in every later run. */
  lemma ReportedForGood(b: Book, frame: Frame, p: Public, later: seq<Frame>)
    requires Ok(b) && RecordedAs(Next(b, frame).recorded, p)
    ensures var after := RunAll(Next(b, frame), later); RecordedAs(after.recorded, p) && p in after.reported
  {
    FrameKeepsOk(b, frame);
    EveryRunKeepsOk(Next(b, frame), later);
    RequestsNeverChange(Next(b, frame), later, p.id);
    assert ReportedOk(RunAll(Next(b, frame), later));
  }

  // ---- Runs ------------------------------------------------------------------

  /** Some accepted frame of the run brought this public request. */
  ghost predicate FromRun(b: Book, frames: seq<Frame>, p: Public) {
    exists t, i, k :: 0 <= t < |frames| && Accept(RunAll(b, frames[..t]), frames[t]).Some?
                      && Brought(RunAll(b, frames[..t]), frames[t], i, k, p)
  }

  ghost predicate AllFrom(b: Book, frames: seq<Frame>, known: Book) {
    && (forall id, p | id in known.interrupts && p in known.interrupts[id].prepared :: FromRun(b, frames, p))
    && (forall p | p in known.reported :: FromRun(b, frames, p))
  }

  lemma FromRunMore(b: Book, frames: seq<Frame>, frame: Frame, p: Public)
    requires FromRun(b, frames, p)
    ensures FromRun(b, frames + [frame], p)
  {
    var t, i, k :| 0 <= t < |frames| && Accept(RunAll(b, frames[..t]), frames[t]).Some?
                   && Brought(RunAll(b, frames[..t]), frames[t], i, k, p);
    hide *;
    var all := frames + [frame];
    assert all[..t] == frames[..t] && all[t] == frames[t];
    assert 0 <= t < |all| && Accept(RunAll(b, all[..t]), all[t]).Some? && Brought(RunAll(b, all[..t]), all[t], i, k, p);
  }

  lemma FromRunNow(b: Book, frames: seq<Frame>, frame: Frame, i: nat, k: nat, p: Public)
    requires Accept(RunAll(b, frames), frame).Some? && Brought(RunAll(b, frames), frame, i, k, p)
    ensures FromRun(b, frames + [frame], p)
  {
    hide Accept, RunAll, Brought;
    var all, t := frames + [frame], |frames|;
    assert all[..t] == frames && all[t] == frame;
  }

  lemma {:induction false} RunThenFrame(b: Book, frames: seq<Frame>, frame: Frame)
    ensures RunAll(b, frames + [frame]) == Next(RunAll(b, frames), frame)
    decreases |frames|
  {
    hide Next;
    var all := frames + [frame];
    if frames == [] {
      assert all[1..] == [];
    } else {
      assert all[0] == frames[0] && all[1..] == frames[1..] + [frame];
      RunThenFrame(Next(b, frames[0]), frames[1..], frame);
    }
  }

  lemma ChildEntries(b: Book, frame: Frame, id: string)
    requires Ok(b) && frame.Child? && Accept(b, frame).Some? && id in Next(b, frame).interrupts
    ensures id in b.interrupts ==> Next(b, frame).interrupts[id].prepared == b.interrupts[id].prepared
    ensures id !in b.interrupts ==> exists i :: 0 <= i < |frame.natives| && frame.natives[i].id == id
  {
    ChildKeepsOk(b, frame.ns, frame.natives, Projection(NewOnes(b, frame.natives), frame.source, frame.calls), frame.messages);
    assert StagedEntry(b.interrupts, Next(b, frame).interrupts, frame.ns, Mentions(frame.natives, id), id);
  }

  lemma ChildBrings(b: Book, frames: seq<Frame>, frame: Frame)
    requires var known := RunAll(b, frames);
             Ok(known) && AllFrom(b, frames, known) && frame.Child? && Accept(known, frame).Some?
    ensures AllFrom(b, frames + [frame], Next(RunAll(b, frames), frame))
  {
    var known := RunAll(b, frames);
    var after := Next(known, frame);
    assert after.reported == known.reported;
    hide Ok, FromRun, Next, Accept, RunAll, Brought;
    forall id, p | id in after.interrupts && p in after.interrupts[id].prepared ensures FromRun(b, frames + [frame], p) {
      ChildEntries(known, frame, id);
      if id in known.interrupts {
        FromRunMore(b, frames, frame, p);
      } else {
        var i :| 0 <= i < |frame.natives| && frame.natives[i].id == id;
        ChildFrameBuffers(known, frame, i);
        var k :| 0 <= k < |after.interrupts[id].prepared| && after.interrupts[id].prepared[k] == p;
        FromRunNow(b, frames, frame, i, k, p);
      }
    }
    forall p | p in after.reported ensures FromRun(b, frames + [frame], p) { FromRunMore(b, frames, frame, p); }
  }

  lemma {:induction false} InFlat(groups: seq<seq<Public>>, p: Public) returns (i: nat)
    requires p in Flat(groups)
    ensures i < |groups| && p in groups[i]
    decreases |groups|
  {
    if p in groups[0] {
      i := 0;
    } else {
      var j := InFlat(groups[1..], p);
      i := j + 1;
    }
  }

  lemma ReportBrings(b: Book, frames: seq<Frame>, frame: Frame, groups: seq<seq<Public>>, p: Public)
    requires var known := RunAll(b, frames);
             AllFrom(b, frames, known) && Accept(known, frame).Some? && ReportsAll(known, frame, groups)
    requires p in Flat(groups)
    ensures FromRun(b, frames + [frame], p)
  {
    var known := RunAll(b, frames);
    var i := InFlat(groups, p);
    assert ReportsOne(known, frame, i, groups[i]);
    hide FromRun, Accept, RunAll, Brought, Flat;
    if frame.natives[i].id in known.interrupts {
      FromRunMore(b, frames, frame, p);
    } else {
      var k :| 0 <= k < |groups[i]| && groups[i][k] == p;
      FromRunNow(b, frames, frame, i, k, p);
    }
  }

  lemma RootBrings(b: Book, frames: seq<Frame>, frame: Frame)
    requires var known := RunAll(b, frames);
             Ok(known) && AllFrom(b, frames, known) && frame.Root? && Accept(known, frame).Some?
    ensures AllFrom(b, frames + [frame], Next(RunAll(b, frames), frame))
  {
    var known := RunAll(b, frames);
    var after := Next(known, frame);
    var groups := RootFrameReports(known, frame);
    hide Ok, FromRun, Next, Accept, RunAll, Brought, ReportsAll, Flat;
    forall id, p | id in after.interrupts && p in after.interrupts[id].prepared ensures FromRun(b, frames + [frame], p) {
      FromRunMore(b, frames, frame, p);
    }
    forall p | p in after.reported ensures FromRun(b, frames + [frame], p) {
      MergeContents(known.reported, Flat(groups));
      if p in known.reported {
        FromRunMore(b, frames, frame, p);
      } else {
        ReportBrings(b, frames, frame, groups, p);
      }
    }
  }

  lemma RefusedBrings(b: Book, frames: seq<Frame>, frame: Frame)
    requires AllFrom(b, frames, RunAll(b, frames))
    ensures AllFrom(b, frames + [frame], RunAll(b, frames))
  {
    var known := RunAll(b, frames);
    hide FromRun, RunAll;
    forall p | FromRun(b, frames, p) ensures FromRun(b, frames + [frame], p) { FromRunMore(b, frames, frame, p); }
  }

  /**
   Over every run whatever is buffered or reported was brought by an accepted frame, with the call that frame found for
   its action: of the j-th new review the j-th group, and of no other request any call.
   */
  lemma {:induction false} EveryRunShowsItsCalls(frames: seq<Frame>)
    ensures AllFrom(Empty(), frames, RunAll(Empty(), frames))
    decreases |frames|
  {
    if frames != [] {
      var init, frame := frames[..|frames| - 1], frames[|frames| - 1];
      assert init + [frame] == frames;
      EmptyIsOk();
      EveryRunKeepsOk(Empty(), init);
      EveryRunShowsItsCalls(init);
      RunThenFrame(Empty(), init, frame);
      hide Ok, AllFrom, RunAll, AcceptChild, AcceptRoot;
      if Accept(RunAll(Empty(), init), frame).None? {
        RefusedBrings(Empty(), init, frame);
      } else if frame.Child? {
        ChildBrings(Empty(), init, frame);
      } else {
        RootBrings(Empty(), init, frame);
      }
    }
  }
}
