/**
 Human-input requests of subagents, from their first appearance in a child namespace to
 their report at the root.

 A child frame is checked completely before anything is stored; a root frame reports
 the requests it repeats together with its own.
 */
module Interrupts {
  import opened ByteFormats
  import opened Options

  type Namespace = seq<string>

  type Actions = actions: seq<string> | actions != [] witness [""]

  /** A review of actions, a runtime envelope, anything else, or a review or envelope that breaks its schema. */
  datatype Value = Review(actions: Actions) | Runtime(envelope: string) | Other(content: string) | Broken(content: string)

  /** A native request stands for one public request, or one for each action under review. */
  datatype Native = Native(id: string, value: Value) {
    function Size(): nat { if value.Review? then |value.actions| else 1 }
  }

  /** What a public request shows: its native request with the index of the action, and where it came from. */
  datatype Body = Body(native: Option<(string, nat)>, value: Value, source: string)

  datatype Public = Public(id: string, toolCall: Option<string>, body: Body)

  datatype Call = Call(id: string, body: string)

  datatype Message = Message(id: string, calls: seq<Call>)

  datatype Buffered = Buffered(id: string, value: Value, prepared: seq<Public>, namespaces: seq<Namespace>)

  /** Everything known about requests. `order`s are insertion orders. */
  datatype Book = Book(
    interrupts: map<string, Buffered>, order: seq<string>,
    rows: map<Namespace, seq<string>>, rowOrder: seq<Namespace>,
    snapshots: map<Namespace, seq<Message>>,
    resolved: set<string>,
    recorded: map<string, Public>, reported: seq<Public>)

  function Empty(): Book { Book(map[], [], map[], [], map[], {}, map[], []) }

  // ---- Small helpers ---------------------------------------------------------

  /** One namespace contains the other. */
  predicate Related(a: Namespace, b: Namespace) { a <= b || b <= a }

  ghost predicate NoRepeats<T>(s: seq<T>) {
    forall i, j | 0 <= i < j < |s| :: s[i] != s[j]
  }

  /** Appends what is not there yet, in order of first appearance. */
  function Merge<T(==)>(known: seq<T>, more: seq<T>): seq<T>
    decreases |more|
  {
    if more == [] then known
    else Merge(if more[0] in known then known else known + [more[0]], more[1..])
  }

  function Ids(natives: seq<Native>): seq<string> {
    seq(|natives|, i requires 0 <= i < |natives| => natives[i].id)
  }

  function Flat(groups: seq<seq<Public>>): seq<Public> {
    if groups == [] then [] else groups[0] + Flat(groups[1..])
  }

  // ---- Public requests -------------------------------------------------------

  /** Several actions are told apart by their position. */
  function PublicId(n: Native, k: nat): string { if n.Size() > 1 then n.id + "#" + Decimal(k) else n.id }

  function PublicOf(n: Native, k: nat, toolCall: Option<string>, source: string): Public {
    Public(PublicId(n, k), toolCall, Body(if n.value.Other? then None else Some((n.id, k)), n.value, source))
  }

  function CallOf(n: Native, calls: seq<string>, k: nat): Option<string> {
    if n.value.Review? && k < |calls| then Some(calls[k]) else None
  }

  /** The public requests of one native request; a review needs one call for each of its actions. */
  function ProjectOne(n: Native, source: string, calls: seq<string>): (group: seq<Public>)
    requires n.value.Review? ==> |calls| == n.Size()
    ensures |group| == n.Size()
    ensures forall k | 0 <= k < |group| :: group[k] == PublicOf(n, k, CallOf(n, calls, k), source)
  {
    seq(n.Size(), k requires 0 <= k < n.Size() => PublicOf(n, k, CallOf(n, calls, k), source))
  }

  /** `calls` are the calls found for the reviews, one group for each, in order. */
  function ProjectAll(natives: seq<Native>, source: string, calls: seq<seq<string>>): Option<seq<Public>>
    decreases |natives|
  {
    if natives == [] then Some([])
    else if natives[0].value.Review? then
      if calls == [] || |calls[0]| != natives[0].Size() || exists i, j :: 0 <= i < j < |calls[0]| && calls[0][i] == calls[0][j] then None
      else
        var rest := ProjectAll(natives[1..], source, calls[1..]);
        if rest.None? then None else Some(ProjectOne(natives[0], source, calls[0]) + rest.value)
    else
      var rest := ProjectAll(natives[1..], source, calls);
      if rest.None? then None else Some(ProjectOne(natives[0], source, []) + rest.value)
  }

  /** Reviews and envelopes cannot share a frame, and without calls for its reviews nothing is projected. */
  function Projection(natives: seq<Native>, source: string, calls: Option<seq<seq<string>>>): Option<seq<Public>> {
    if (exists i :: 0 <= i < |natives| && natives[i].value.Broken?)
       || ((exists i :: 0 <= i < |natives| && natives[i].value.Review?)
           && (calls.None? || exists i :: 0 <= i < |natives| && natives[i].value.Runtime?))
    then None
    else ProjectAll(natives, source, calls.GetOr([]))
  }

  /** Cuts a list of public requests back into one group for each native request. */
  function Grouped(natives: seq<Native>, prepared: seq<Public>): Option<seq<seq<Public>>> {
    if natives == [] then if prepared == [] then Some([]) else None
    else if |prepared| < natives[0].Size() then None
    else
      var rest := Grouped(natives[1..], prepared[natives[0].Size()..]);
      if rest.None? then None else Some([prepared[..natives[0].Size()]] + rest.value)
  }

  /** No two requests share an ID, and none contradicts a request that was reported before. */
  predicate Publishable(prepared: seq<Public>, recorded: map<string, Public>) {
    && (forall i, j | 0 <= i < j < |prepared| :: prepared[i].id != prepared[j].id)
    && (forall i | 0 <= i < |prepared| && prepared[i].id in recorded :: recorded[prepared[i].id] == prepared[i])
  }

  function Prepared(interrupts: map<string, Buffered>, order: seq<string>): seq<Public> {
    if order == [] then []
    else (if order[0] in interrupts then interrupts[order[0]].prepared else []) + Prepared(interrupts, order[1..])
  }

  // ---- A child frame ---------------------------------------------------------

  predicate Admissible(b: Book, ns: Namespace, natives: seq<Native>) {
    && (forall i, j | 0 <= i < j < |natives| :: natives[i].id != natives[j].id)
    && (forall i | 0 <= i < |natives| && natives[i].id in b.interrupts ::
         var known := b.interrupts[natives[i].id];
         && known.value == natives[i].value
         && (ns in known.namespaces || forall m | m in known.namespaces :: Related(m, ns)))
  }

  function NewOnes(b: Book, natives: seq<Native>): seq<Native> {
    if natives == [] then []
    else (if natives[0].id in b.interrupts then [] else [natives[0]]) + NewOnes(b, natives[1..])
  }

  /** The buffer with the frame's requests added or placed in one more namespace. */
  function Staged(interrupts: map<string, Buffered>, order: seq<string>, ns: Namespace, natives: seq<Native>,
                  groups: seq<seq<Public>>): (map<string, Buffered>, seq<string>)
    decreases |natives|
  {
    if natives == [] then (interrupts, order)
    else
      var n := natives[0];
      if n.id in interrupts then
        var known := interrupts[n.id];
        var placed := if ns in known.namespaces then known else known.(namespaces := known.namespaces + [ns]);
        Staged(interrupts[n.id := placed], order, ns, natives[1..], groups)
      else if groups == [] then Staged(interrupts, order, ns, natives[1..], groups)
      else Staged(interrupts[n.id := Buffered(n.id, n.value, groups[0], [ns])], order + [n.id], ns, natives[1..], groups[1..])
  }

  /** The proposals of a snapshot, by call; a later message overrides an earlier one. */
  function Proposals(messages: seq<Message>): map<string, (string, Call)> {
    if messages == [] then map[]
    else
      var last := messages[|messages| - 1];
      AddCalls(Proposals(messages[..|messages| - 1]), last.id, last.calls)
  }

  function AddCalls(known: map<string, (string, Call)>, message: string, calls: seq<Call>): map<string, (string, Call)>
    decreases |calls|
  {
    if calls == [] then known else AddCalls(known[calls[0].id := (message, calls[0])], message, calls[1..])
  }

  function Row(b: Book, ns: Namespace): seq<string> {
    if ns in b.rows then b.rows[ns] else []
  }

  /** The calls that wait for a decision in a namespace. */
  ghost predicate Waits(b: Book, ns: Namespace, call: string) {
    exists id, k :: id in Row(b, ns) && id in b.interrupts && 0 <= k < |b.interrupts[id].prepared|
      && b.interrupts[id].prepared[k].toolCall == Some(call)
  }

  ghost predicate ProposalsStay(b: Book, ns: Namespace, messages: seq<Message>) {
    ns in b.snapshots ==>
      var before, now := Proposals(b.snapshots[ns]), Proposals(messages);
      forall call | call in before && Waits(b, ns, call) :: call in now && now[call] == before[call]
  }

  /** `projected` is what the projection makes of the new requests, if it succeeds. */
  ghost function AcceptChild(b: Book, ns: Namespace, natives: seq<Native>, projected: Option<seq<Public>>,
                             messages: seq<Message>): Option<Book> {
    if natives == [] then Some(b)
    else if !Admissible(b, ns, natives) || projected.None? || !Publishable(projected.value, b.recorded) then None
    else
      var groups := Grouped(NewOnes(b, natives), projected.value);
      if groups.None? then None
      else
        var (interrupts, order) := Staged(b.interrupts, b.order, ns, natives, groups.value);
        if !Publishable(Prepared(interrupts, order), b.recorded) || !ProposalsStay(b, ns, messages) then None
        else Some(b.(interrupts := interrupts, order := order,
                     rows := b.rows[ns := Merge(Row(b, ns), Ids(natives))],
                     rowOrder := if ns in b.rows then b.rowOrder else b.rowOrder + [ns],
                     snapshots := b.snapshots[ns := messages]))
  }

  // ---- A root frame ----------------------------------------------------------

  predicate Repeatable(b: Book, natives: seq<Native>) {
    && (forall i, j | 0 <= i < j < |natives| :: natives[i].id != natives[j].id)
    && (forall i | 0 <= i < |natives| && natives[i].id in b.interrupts :: b.interrupts[natives[i].id].value == natives[i].value)
  }

  /** What the root reports: buffered requests as they were first prepared, its own as projected now. */
  function Report(b: Book, natives: seq<Native>, groups: seq<seq<Public>>): seq<Public>
    decreases |natives|
  {
    if natives == [] then []
    else if natives[0].id in b.interrupts then b.interrupts[natives[0].id].prepared + Report(b, natives[1..], groups)
    else if groups == [] then Report(b, natives[1..], groups)
    else groups[0] + Report(b, natives[1..], groups[1..])
  }

  function Record(recorded: map<string, Public>, reported: seq<Public>, prepared: seq<Public>)
    : (map<string, Public>, seq<Public>)
    decreases |prepared|
  {
    if prepared == [] then (recorded, reported)
    else if prepared[0].id in recorded then Record(recorded, reported, prepared[1..])
    else Record(recorded[prepared[0].id := prepared[0]], reported + [prepared[0]], prepared[1..])
  }

  function Propagated(b: Book, natives: seq<Native>): set<string> {
    set i | 0 <= i < |natives| && natives[i].id in b.interrupts :: natives[i].id
  }

  function RootReport(b: Book, natives: seq<Native>, projected: Option<seq<Public>>): Option<seq<Public>> {
    if !Repeatable(b, natives) || projected.None? || !Publishable(projected.value, b.recorded) then None
    else
      var groups := Grouped(NewOnes(b, natives), projected.value);
      if groups.None? then None
      else
        var report := Report(b, natives, groups.value);
        if Publishable(report, b.recorded) then Some(report) else None
  }

  function AcceptRoot(b: Book, natives: seq<Native>, projected: Option<seq<Public>>): Option<Book> {
    var report := RootReport(b, natives, projected);
    if report.None? then None
    else if report.value == [] then Some(b)
    else
      var (recorded, reported) := Record(b.recorded, b.reported, report.value);
      Some(b.(recorded := recorded, reported := reported, resolved := b.resolved + Propagated(b, natives)))
  }

  predicate CanFinish(b: Book) { b.interrupts.Keys <= b.resolved }

  // ---- Runs ------------------------------------------------------------------

  datatype Frame =
    | Child(ns: Namespace, natives: seq<Native>, source: string, calls: Option<seq<seq<string>>>, messages: seq<Message>)
    | Root(natives: seq<Native>, source: string, calls: Option<seq<seq<string>>>)

  ghost function Accept(b: Book, frame: Frame): Option<Book> {
    match frame
    case Child(ns, natives, source, calls, messages) =>
      AcceptChild(b, ns, natives, Projection(NewOnes(b, natives), source, calls), messages)
    case Root(natives, source, calls) => AcceptRoot(b, natives, Projection(NewOnes(b, natives), source, calls))
  }

  /** Refused frames change nothing. */
  ghost function Next(b: Book, frame: Frame): Book { Accept(b, frame).GetOr(b) }

  ghost function RunAll(b: Book, frames: seq<Frame>): Book
    decreases |frames|
  {
    if frames == [] then b else RunAll(Next(b, frames[0]), frames[1..])
  }
}
