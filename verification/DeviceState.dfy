/**
 What survives a crash of the desktop client: the saved settings, the keychain, the
 files of an update and the installed application. Operations are given by the durable
 writes they make, in order; a crash or an error stops one after any of them.
 */
module DeviceState {
  import opened Courses
  import opened Options

  type Account = nat
  type Secret = nat
  type Version = nat

  /** A keychain entry can be read only by the application version that created it. */
  datatype Key = Key(secret: Secret, owner: Version)

  datatype Pending = Pending(account: Account, authorized: bool)

  /** `credentials.json`: both accounts, sealed with the device secret. */
  datatype Record = Record(from: Version, to: Version, source: Account, target: Account, sealed: Secret)

  datatype Versions = Versions(from: Version, to: Version)

  /**
   `named` is the update that `pending.json` points at, `retained` whether the old
   application is kept beside the new one, and `orphans` are records in directories
   that nothing points at any more.
   */
  datatype Disk = Disk(
    current: Option<Account>, pending: Option<Pending>, retired: seq<Account>,
    keys: map<Account, Key>,
    record: Option<Record>, named: Option<Versions>,
    installed: Version, retained: bool, orphans: seq<Record>)

  const Nothing: Course<Disk> := Course([], true)
  const Failure: Course<Disk> := Course([], false)

  // ---- Accounts outside updates ----------------------------------------------

  predicate CanClean(d: Disk) {
    forall a | a in d.retired :: d.current != Some(a) && (d.pending.None? || d.pending.value.account != a)
  }

  function Removing(d: Disk, accounts: seq<Account>): seq<Disk>
    decreases |accounts|
  {
    if accounts == [] then []
    else
      var next := d.(keys := d.keys - {accounts[0]});
      [next] + Removing(next, accounts[1..])
  }

  /** Deletes every retired account, then forgets them. */
  function Clean(d: Disk): Course<Disk> {
    if d.retired == [] then Nothing
    else if !CanClean(d) then Failure
    else
      var removed := Removing(d, d.retired);
      Course(removed + [End(d, removed).(retired := [])], true)
  }

  function Discard(d: Disk): Course<Disk> {
    if d.pending.None? then Nothing
    else
      var retired := d.(pending := None, retired := d.retired + [d.pending.value.account]);
      Append(Course([retired], true), Clean(retired))
  }

  /** The new account is written down before its keychain entry is created. */
  function Request(d: Disk, account: Account, secret: Secret): Course<Disk> {
    var named := d.(pending := Some(Pending(account, false)));
    var created := if account in d.keys then named else named.(keys := d.keys[account := Key(secret, d.installed)]);
    Course([named, created, created.(pending := Some(Pending(account, true)))], true)
  }

  function Start(d: Disk, account: Account, secret: Secret): Course<Disk> {
    if d.pending.Some? && d.pending.value.authorized then Nothing
    else
      var discarded := Discard(d);
      Append(discarded, Request(End(d, discarded.writes), account, secret))
  }

  /** The server has authorized the pending account: it replaces the current one. */
  function Accept(d: Disk): Course<Disk> {
    if d.pending.None? || !d.pending.value.authorized then Nothing
    else
      var account := d.pending.value.account;
      var retired := if d.current.Some? && d.current.value != account then d.retired + [d.current.value] else d.retired;
      var accepted := d.(current := Some(account), pending := None, retired := retired);
      Append(Course([accepted], true), Clean(accepted))
  }

  function CanRead(d: Disk, account: Account, version: Version): bool {
    account in d.keys && d.keys[account].owner == version
  }

  function RevokeCurrent(d: Disk): Course<Disk> {
    if d.current.None? || !CanRead(d, d.current.value, d.installed) then Failure
    else
      var revoked := d.(current := None, retired := d.retired + [d.current.value]);
      Append(Course([revoked], true), Clean(revoked))
  }

  function Revoke(d: Disk): Course<Disk> {
    var discarded := Discard(d);
    Append(discarded, RevokeCurrent(End(d, discarded.writes)))
  }

  datatype UiOperation = StartAuthorization(account: Account, secret: Secret) | AcceptAuthorization | EndAuthorization
                       | RevokeAuthorization | CleanAccounts

  function UiCourse(d: Disk, op: UiOperation): Course<Disk> {
    match op
    case StartAuthorization(account, secret) => Start(d, account, secret)
    case AcceptAuthorization => Accept(d)
    case EndAuthorization => Discard(d)
    case RevokeAuthorization => Revoke(d)
    case CleanAccounts => Clean(d)
  }

  // ---- Updates ---------------------------------------------------------------

  /** Removes the directory of an update, with the retained application and `pending.json`. */
  function RemoveWorkspace(d: Disk): Course<Disk> {
    if d.record.Some? then Failure
    else if d.named.None? && !d.retained then Nothing
    else Course([d.(retained := false), d.(retained := false, named := None)], true)
  }

  /** Settles the previous update and gives up a pending authorization. */
  function Begin(d: Disk): Course<Disk> {
    var settled := RemoveWorkspace(d);
    Append(settled, Discard(End(d, settled.writes)))
  }

  /** The record is written first, then the pointer to it, and only then the candidate creates its entry. */
  function Hand(d: Disk, record: Record): Course<Disk> {
    var recorded := d.(record := Some(record));
    var pointed := recorded.(named := Some(Versions(record.from, record.to)));
    if d.pending.Some? then Course([recorded, pointed], false)
    else if record.target !in d.keys then
      Course([recorded, pointed, pointed.(keys := d.keys[record.target := Key(record.sealed, record.to)])], true)
    else Course([recorded, pointed], d.keys[record.target].secret == record.sealed)
  }

  /** Reads the current secret and hands it over, under the record that exists or a new one. */
  function HandCurrent(d: Disk, target: Account, to: Version): Course<Disk> {
    if d.current.None? || !CanRead(d, d.current.value, d.installed) then Failure
    else
      var account := d.current.value;
      var secret := d.keys[account].secret;
      if d.record.None? then Hand(d, Record(d.installed, to, account, target, secret))
      else if d.record.value.sealed != secret || d.record.value.source != account then Failure
      else Hand(d, d.record.value)
  }

  function Prepare(d: Disk, target: Account, to: Version): Course<Disk> {
    var cleaned := Clean(d);
    Append(cleaned, HandCurrent(End(d, cleaned.writes), target, to))
  }

  /** Copies the old application beside the target, then exchanges the two. */
  function Install(d: Disk): Course<Disk> {
    if d.record.None? || d.installed != d.record.value.from then Failure
    else Course([d.(retained := true), d.(retained := true, installed := d.record.value.to)], true)
  }

  /** The version `running` lets the candidate delete its own account, then clears the record. */
  function Cancel(d: Disk, running: Version): Course<Disk> {
    if d.record.None? then Nothing
    else
      var r := d.record.value;
      if d.current.None? || !CanRead(d, d.current.value, running) || d.keys[d.current.value].secret != r.sealed then Failure
      else if d.current != Some(r.source) then Failure
      else if r.target !in d.keys then Course([d.(record := None)], true)
      else if d.keys[r.target].secret != r.sealed then Failure
      else
        var removed := d.(keys := d.keys - {r.target});
        Course([removed, removed.(record := None)], true)
  }

  /** The new application makes the target account its own. */
  function Adopt(d: Disk): Course<Disk> {
    if d.record.None? then Nothing
    else
      var r := d.record.value;
      if d.current !in {Some(r.source), Some(r.target)} || d.pending.Some? then Failure
      else if !CanRead(d, r.target, d.installed) || d.keys[r.target].secret != r.sealed then Failure
      else Course([d.(current := Some(r.target))], true)
  }

  /** The retained application deletes the source account, then the record is cleared. */
  function Finish(d: Disk): Course<Disk> {
    if d.record.None? then Nothing
    else
      var r := d.record.value;
      if d.current.None? || !CanRead(d, d.current.value, d.installed) || d.keys[d.current.value].secret != r.sealed then Failure
      else if !d.retained || d.current != Some(r.target) then Failure
      else if r.source !in d.keys then Course([d.(record := None)], true)
      else if d.keys[r.source] != Key(r.sealed, r.from) then Failure
      else
        var removed := d.(keys := d.keys - {r.source});
        Course([removed, removed.(record := None)], true)
  }

  function AndRemove(d: Disk, course: Course<Disk>): Course<Disk> {
    Append(course, RemoveWorkspace(End(d, course.writes)))
  }

  /** What the installed application does with a pending update when it starts. */
  function Recover(d: Disk): Course<Disk> {
    if d.named.None? then
      if d.record.None? then Nothing else Course([d.(record := None, orphans := d.orphans + [d.record.value])], true)
    else if d.installed == d.named.value.from then AndRemove(d, Cancel(d, d.installed))
    else if d.installed == d.named.value.to then
      var adopted := Adopt(d);
      AndRemove(d, Append(adopted, Finish(End(d, adopted.writes))))
    else Failure
  }

  // ---- Runs ------------------------------------------------------------------

  /** Whether the application runs, and how far an update in it has come. */
  datatype Stage = Idle | Updating | Swapped(believed: bool) | Down

  datatype World = World(disk: Disk, stage: Stage)

  /** Every action makes at most `writes` of its writes, and may end in a crash. */
  datatype Action =
    | Ui(op: UiOperation, writes: nat, crash: bool)
    | BeginUpdate(writes: nat, crash: bool)
    | PrepareUpdate(target: Account, to: Version, writes: nat, crash: bool)
    | InstallUpdate(writes: nat, crash: bool, believed: bool)
    | CancelUpdate(writes: nat, crash: bool)
    | Launch(writes: nat, crash: bool)
    | Quit

  /** An account name that has never been used. */
  predicate Unused(d: Disk, a: Account) {
    && a !in d.keys && d.current != Some(a) && a !in d.retired
    && (d.pending.Some? ==> d.pending.value.account != a)
    && (d.record.Some? ==> d.record.value.source != a && d.record.value.target != a)
  }

  predicate Enabled(w: World, action: Action) {
    match action
    case Ui(op, _, _) => w.stage.Idle? && (op.StartAuthorization? ==> Unused(w.disk, op.account))
    case BeginUpdate(_, _) => w.stage.Idle?
    case PrepareUpdate(target, to, _, _) =>
      w.stage.Updating? && w.disk.installed < to && Unused(w.disk, target)
      && (w.disk.record.Some? ==> w.disk.record.value.to == to)
      && (w.disk.named.Some? ==> w.disk.named == Some(Versions(w.disk.installed, to)))
    case InstallUpdate(_, _, _) =>
      w.stage.Updating? && w.disk.record.Some? && w.disk.named.Some? && w.disk.record.value.target in w.disk.keys
    case CancelUpdate(_, _) => w.stage.Updating? || w.stage == Swapped(false)
    case Launch(_, _) => w.stage.Down?
    case Quit => true
  }

  /** The version whose code is running: after the exchange it is still the old one. */
  function Running(w: World): Version {
    if w.stage.Swapped? && w.disk.record.Some? then w.disk.record.value.from else w.disk.installed
  }

  function CourseOf(w: World, action: Action): Course<Disk> {
    match action
    case Ui(op, _, _) => UiCourse(w.disk, op)
    case BeginUpdate(_, _) => Begin(w.disk)
    case PrepareUpdate(target, to, _, _) => Prepare(w.disk, target, to)
    case InstallUpdate(_, _, _) => Install(w.disk)
    case CancelUpdate(_, _) => AndRemove(w.disk, Cancel(w.disk, Running(w)))
    case Launch(_, _) => Recover(w.disk)
    case Quit => Nothing
  }

  function StageAfter(w: World, action: Action, complete: bool): Stage {
    match action
    case Ui(_, _, _) => Idle
    case BeginUpdate(_, _) => if complete then Updating else Idle
    case PrepareUpdate(_, _, _, _) => Updating
    case InstallUpdate(_, _, believed) => if complete then Swapped(believed) else Updating
    case CancelUpdate(_, _) => if complete then Idle else w.stage
    case Launch(_, _) => if complete then Idle else Down
    case Quit => Down
  }

  function Perform(w: World, action: Action): World {
    if !Enabled(w, action) then w
    else if action.Quit? then World(w.disk, Down)
    else
      var course := CourseOf(w, action);
      var complete := course.done && action.writes >= |course.writes|;
      World(After(w.disk, course.writes, action.writes),
            if action.crash then Down else StageAfter(w, action, complete))
  }

  function RunAll(w: World, actions: seq<Action>): World
    decreases |actions|
  {
    if actions == [] then w else RunAll(Perform(w, actions[0]), actions[1..])
  }

  /** A client that was never connected. */
  function Initial(version: Version): World {
    World(Disk(None, None, [], map[], None, None, version, false, []), Idle)
  }
}
