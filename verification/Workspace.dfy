/** The Bot's files, and the boundary its reads and writes must not cross. */
module Workspace {
  import opened Text
  import opened FileSystem

  datatype Refusal =
    | PathRequired | AbsolutePath | HoldsParent | OutsideWorkspace | LinksDoNotSettle | LeadsNowhere
    | WorkspaceMissing | NoSuchFile | NotAFile | TooManyBytes | System(why: Errno)

  datatype Limits = Limits(readBytes: nat, writeBytes: nat)

  // ----- paths as text: `node:path` -----

  /** Drops empty and `.` parts and takes `..` back one name, never above `/`. */
  function Normalise(base: Path, parts: seq<string>): (p: Path)
    requires forall part | part in parts :: '/' !in part
    ensures Plain(base) ==> Plain(p)
    ensures ".." !in parts ==> base <= p
    decreases |parts|
  {
    if parts == [] then base
    else if parts[0] == "" || parts[0] == "." then Normalise(base, parts[1..])
    else if parts[0] == ".." then Normalise(Parent(base), parts[1..])
    else Normalise(base + [parts[0]], parts[1..])
  }

  /** `resolve(base, text)` */
  function ResolveText(base: Path, text: string): (p: Path)
    ensures Plain(base) ==> Plain(p)
  {
    Normalise(if IsAbsolute(text) then [] else base, Split(text, '/'))
  }

  /** The last name of a path; none for `/`. */
  function BaseName(p: Path): (last: Path)
    ensures Parent(p) + last == p
  {
    if p == [] then [] else [p[|p| - 1]]
  }

  /** `relative(from, to)`, as its parts. */
  function Relative(from: Path, to: Path): seq<string> {
    if from != [] && to != [] && from[0] == to[0] then Relative(from[1..], to[1..])
    else seq(|from|, _ => "..") + to
  }

  predicate LooksInside(rel: string) {
    !(rel != "" && (rel == ".." || "../" <= rel || IsAbsolute(rel)))
  }

  /** `assertInside`, a comparison of the relative path's text. */
  predicate Inside(root: Path, candidate: Path) {
    LooksInside(Join(Relative(root, candidate), "/"))
  }

  /** The text comparison is containment component by component, whatever the names look like. */
  lemma {:induction false} InsideIsPrefix(root: Path, candidate: Path)
    requires Plain(root) && Plain(candidate)
    ensures Inside(root, candidate) <==> root <= candidate
    decreases |root|
  {
    if root != [] && candidate != [] && root[0] == candidate[0] {
      InsideIsPrefix(root[1..], candidate[1..]);
      assert root == [root[0]] + root[1..] && candidate == [candidate[0]] + candidate[1..];
    } else if root != [] {
      var rel := seq(|root|, _ => "..") + candidate;
      assert rel[0] == "..";
      assert Join(rel, "/") == ".." || "../" <= Join(rel, "/");
    } else if candidate != [] {
      assert seq(0, _ => "..") + candidate == candidate;
      PlainTextLooksInside(candidate);
    }
  }

  lemma PlainTextLooksInside(p: Path)
    requires Plain(p) && p != []
    ensures LooksInside(Join(p, "/"))
  {
    var name, text := p[0], Join(p, "/");
    assert PlainName(name) && name <= text;
    assert forall i | 0 <= i < |name| :: name[i] in name && text[i] == name[i];
    assert |p| > 1 ==> |name| < |text| && text[|name|] == '/';
    assert |name| == 2 && name[0] == '.' && name[1] == '.' ==> name == "..";
    assert |text| > 1 && text[0] == '.' && text[1] == '.' ==> |text| > 2 && text[2] != '/';
  }

  // ----- walks -----

  const MAX_LINK_HOPS: nat := 32

  function Destination(disk: Disk, current: Path, hops: nat): (r: Result<Path, Refusal>)
    ensures Plain(current) && r.Ok? ==> Plain(r.value)
    ensures r.Refused? ==> r.error == LinksDoNotSettle
    decreases hops, current
  {
    match LinkAt(disk, current)
    case Refused(_) => Ok(current)
    case Ok(text) =>
      if hops == 0 then Refused(LinksDoNotSettle)
      else Destination(disk, ResolveText(Parent(current), text), hops - 1)
  }

  lemma OneHop(disk: Disk, current: Path, hops: nat)
    requires LinkAt(disk, current).Ok?
    ensures Destination(disk, current, hops) ==
      if hops == 0 then Refused(LinksDoNotSettle)
      else Destination(disk, ResolveText(Parent(current), LinkAt(disk, current).value), hops - 1)
  {
  }

  /** The chain from `current`, with so many hops left, leads there; past the last it does not settle. */
  ghost predicate Leads(to: Result<Path, Refusal>, disk: Disk, current: Path, hops: int) {
    to == if hops >= 0 then Destination(disk, current, hops) else Refused(LinksDoNotSettle)
  }

  /** `writeDestination`: where a chain of links at the last name leads. */
  method WriteDestination(disk: Disk, target: Path, maxHops: nat := MAX_LINK_HOPS) returns (r: Result<Path, Refusal>)
    ensures r == Destination(disk, target, maxHops)
  {
    var current, hop := target, 0;
    ghost var to, left := Destination(disk, target, maxHops), maxHops as int;
    while hop <= maxHops
      invariant hop <= maxHops + 1 && left == maxHops - hop
      invariant Leads(to, disk, current, left)
    {
      var next := NextHop(disk, current, to, left);
      if next.None? { return Ok(current); }
      current, hop, left := next.value, hop + 1, left - 1;
    }
    return Refused(LinksDoNotSettle);
  }

  /** What the loop finds at one name: no link, or where the link points. */
  method NextHop(disk: Disk, current: Path, ghost to: Result<Path, Refusal>, ghost hops: nat) returns (next: Option<Path>)
    requires Leads(to, disk, current, hops)
    ensures next.None? ==> to == Ok(current)
    ensures next.Some? ==> Leads(to, disk, next.value, hops - 1)
  {
    var entry := LinkAt(disk, current);
    if entry.Refused? { return None; }
    OneHop(disk, current, hops);
    next := Some(ResolveText(Parent(current), entry.value));
  }

  function Ancestor(disk: Disk, root: Path, target: Path): Result<Path, Refusal> {
    match RealPath(disk, target)
    case Ok(at) => Ok(at)
    case Refused(_) =>
      if target == [] then Refused(WorkspaceMissing)
      else if !Inside(root, Parent(target)) then Refused(OutsideWorkspace)
      else Ancestor(disk, root, Parent(target))
  }

  /** `nearestExistingAncestor` */
  method NearestExistingAncestor(disk: Disk, root: Path, target: Path) returns (r: Result<Path, Refusal>)
    ensures r == Ancestor(disk, root, target)
  {
    var current := target;
    while true
      invariant Ancestor(disk, root, target) == Ancestor(disk, root, current)
      decreases |current|
    {
      var found := RealPath(disk, current);
      if found.Ok? { return Ok(found.value); }
      if current == [] { return Refused(WorkspaceMissing); }
      if !Inside(root, Parent(current)) { return Refused(OutsideWorkspace); }
      current := Parent(current);
    }
  }

  // ----- `resolvePath` -----

  /** What is asked of the request's text before the disk is looked at. */
  function Wanted(requested: string): (r: Result<string, Refusal>)
    ensures r.Ok? ==> r.value == Trim(requested) && !IsAbsolute(r.value) && ".." !in SplitAny(r.value, {'/', '\\'})
    ensures r.Refused? <==> Trim(requested) == "" || IsAbsolute(Trim(requested)) || ".." in SplitAny(Trim(requested), {'/', '\\'})
    ensures r.Refused? ==>
      r.error == if Trim(requested) == "" then PathRequired else if IsAbsolute(Trim(requested)) then AbsolutePath else HoldsParent
  {
    var wanted := Trim(requested);
    if wanted == "" then Refused(PathRequired)
    else if IsAbsolute(wanted) then Refused(AbsolutePath)
    else if ".." in SplitAny(wanted, {'/', '\\'}) then Refused(HoldsParent)
    else Ok(wanted)
  }

  /** Layer three for a name that is a link: the directory its destination is in must be inside too. */
  function Landing(disk: Disk, root: Path, target: Path): Result<Path, Refusal> {
    match Destination(disk, target, MAX_LINK_HOPS)
    case Refused(why) => Refused(why)
    case Ok(landing) =>
      if landing == target then Ok(target)
      else
        match RealPath(disk, Parent(landing))
        case Refused(_) => Refused(LeadsNowhere)
        case Ok(holder) =>
          var resolved := holder + BaseName(landing);
          if !Inside(root, holder) || !Inside(root, resolved) then Refused(OutsideWorkspace) else Ok(resolved)
  }

  function ResolveForWrite(disk: Disk, root: Path, target: Path): Result<Path, Refusal> {
    match (match RealPath(disk, Parent(target))
           case Ok(at) => Ok(at)
           case Refused(_) => Ancestor(disk, root, Parent(target)))
    case Refused(why) => Refused(why)
    case Ok(anchor) => if !Inside(root, anchor) then Refused(OutsideWorkspace) else Landing(disk, root, target)
  }

  function ResolveForRead(disk: Disk, root: Path, target: Path): Result<Path, Refusal> {
    match RealPath(disk, target)
    case Refused(_) => Refused(NoSuchFile)
    case Ok(at) => if !Inside(root, at) then Refused(OutsideWorkspace) else Ok(at)
  }

  function ResolvePath(disk: Disk, rootPath: Path, requested: string, forWrite: bool): Result<Path, Refusal> {
    match Wanted(requested)
    case Refused(why) => Refused(why)
    case Ok(wanted) =>
      match RealPath(disk, rootPath)
      case Refused(why) => Refused(System(why))
      case Ok(root) =>
        var target := ResolveText(root, wanted);
        if !Inside(root, target) then Refused(OutsideWorkspace)
        else if forWrite then ResolveForWrite(disk, root, target)
        else ResolveForRead(disk, root, target)
  }

  // ----- what is promised -----

  ghost predicate Rooted(disk: Disk, rootPath: Path, root: Path) {
    WellFormed(disk) && Plain(rootPath) && RealPath(disk, rootPath) == Ok(root)
  }

  lemma RealPathsAreReal(disk: Disk, p: Path)
    requires WellFormed(disk) && RealPath(disk, p).Ok?
    ensures var at := RealPath(disk, p).value;
            at in disk && !IsLink(disk, at) && Plain(at) && RealPath(disk, at) == Ok(at)
  {
    WalkFinds(disk, [], p, MAX_SYSTEM_LINKS, true);
    var at := RealPath(disk, p).value;
    assert Placed(disk, at);
    RealPathIsFixed(disk, at, true);
  }

  /** Refusing `..` already keeps the text inside the root: the second layer can only agree. */
  lemma TextStaysInside(root: Path, requested: string)
    requires Plain(root) && Wanted(requested).Ok?
    ensures Inside(root, ResolveText(root, Wanted(requested).value))
  {
    var wanted := Wanted(requested).value;
    if ".." in Split(wanted, '/') {
      FinerSplitKeeps(wanted, {'/'}, {'/', '\\'}, "..");
    }
    InsideIsPrefix(root, ResolveText(root, wanted));
  }

  /** A path resolved for reading is a real path under the root, so following it goes nowhere else. */
  lemma ReadStaysInside(disk: Disk, rootPath: Path, root: Path, requested: string)
    requires Rooted(disk, rootPath, root)
    requires ResolvePath(disk, rootPath, requested, false).Ok?
    ensures var p := ResolvePath(disk, rootPath, requested, false).value;
            root <= p && p in disk && !IsLink(disk, p) && RealPath(disk, p) == Ok(p)
  {
    var p := ResolvePath(disk, rootPath, requested, false).value;
    RealPathsAreReal(disk, rootPath);
    RealPathsAreReal(disk, ResolveText(root, Wanted(requested).value));
    InsideIsPrefix(root, p);
  }

  /**
   * The shape of every path `resolvePath` answers for a write: a part that leads to a real place
   * inside the root, names below it that lead nowhere yet, and a last name that is not a link.
   */
  ghost predicate Aimed(disk: Disk, root: Path, full: Path, known: Path, more: Path) {
    && Plain(known) && Plain(more)
    && Parent(full) == known + more
    && Follow(disk, known).Found?
    && root <= Follow(disk, known).at
    && (more != [] ==> !Follow(disk, known + more[..1]).Found?)
    && (full != [] && more == [] ==> !IsLink(disk, Follow(disk, known).at + BaseName(full)))
    && Plain(full)
  }

  lemma {:induction false} AncestorAims(disk: Disk, root: Path, target: Path, tail: Path) returns (known: Path, more: Path)
    requires WellFormed(disk) && Plain(root) && Plain(target) && Plain(tail)
    requires Ancestor(disk, root, target).Ok?
    requires tail != [] ==> !Follow(disk, target + tail[..1]).Found?
    ensures target + tail == known + more && Plain(known) && Plain(more)
    ensures Follow(disk, known) == Found(Ancestor(disk, root, target).value)
    ensures more != [] ==> !Follow(disk, known + more[..1]).Found?
    decreases |target|
  {
    if RealPath(disk, target).Ok? {
      known, more := target, tail;
    } else {
      var last := BaseName(target);
      assert Parent(target) + (last + tail)[..1] == target;
      assert Parent(target) + (last + tail) == target + tail;
      known, more := AncestorAims(disk, root, Parent(target), last + tail);
    }
  }

  /** A name in a directory that is found is a link exactly when `lstat` says so. */
  lemma NoLinkToFollow(disk: Disk, p: Path)
    requires WellFormed(disk) && Plain(p) && p != []
    requires LinkAt(disk, p).Refused? && Follow(disk, Parent(p)).Found?
    ensures !IsLink(disk, Follow(disk, Parent(p)).at + BaseName(p))
  {
    var d := Follow(disk, Parent(p)).at;
    var n := p[|p| - 1];
    assert Parent(p) + [n] == p;
    WalkLast(disk, [], Parent(p), n, MAX_SYSTEM_LINKS, false);
    if d + [n] in disk {
      assert Placed(disk, d + [n]) && Parent(d + [n]) == d;
    }
  }

  lemma {:induction false} DestinationIsNoLink(disk: Disk, current: Path, hops: nat)
    requires Destination(disk, current, hops).Ok?
    ensures LinkAt(disk, Destination(disk, current, hops).value).Refused?
    decreases hops
  {
    if LinkAt(disk, current).Ok? {
      OneHop(disk, current, hops);
      DestinationIsNoLink(disk, ResolveText(Parent(current), LinkAt(disk, current).value), hops - 1);
    }
  }

  /** An ordinary name: the directory it is asked for in, or the nearest one above that exists. */
  lemma PlainTargetAims(disk: Disk, root: Path, target: Path) returns (known: Path, more: Path)
    requires WellFormed(disk) && Plain(root) && Plain(target)
    requires ResolveForWrite(disk, root, target) == Ok(target) && LinkAt(disk, target).Refused?
    ensures Aimed(disk, root, target, known, more)
  {
    var anchor := Parent(target);
    if RealPath(disk, anchor).Ok? {
      known, more := anchor, [];
      assert known + more == anchor;
      if target != [] { NoLinkToFollow(disk, target); }
    } else {
      known, more := AncestorAims(disk, root, anchor, []);
      assert anchor + [] == anchor && known + [] == known;
    }
    WalkFinds(disk, [], known, MAX_SYSTEM_LINKS, true);
    assert Placed(disk, Follow(disk, known).at);
    InsideIsPrefix(root, Follow(disk, known).at);
  }

  /** A name that is no link, taken in the real place of what is above it. */
  lemma HeldNameAims(disk: Disk, root: Path, landing: Path, holder: Path, full: Path)
    requires WellFormed(disk) && Plain(root) && Plain(landing) && LinkAt(disk, landing).Refused?
    requires RealPath(disk, Parent(landing)) == Ok(holder) && Inside(root, holder) && full == holder + BaseName(landing)
    ensures full != [] ==> Aimed(disk, root, full, holder, [])
  {
    RealPathsAreReal(disk, Parent(landing));
    InsideIsPrefix(root, holder);
    if landing == [] {
      RealPathIsFixed(disk, [], true);
    } else {
      NoLinkToFollow(disk, landing);
      assert Parent(full) == holder == holder + [] && BaseName(full) == BaseName(landing);
    }
  }

  /** A name that is a link: the real directory its chain ends in, and a name there that is no link. */
  lemma LinkedTargetAims(disk: Disk, root: Path, target: Path, full: Path) returns (known: Path)
    requires WellFormed(disk) && Plain(root) && Plain(target)
    requires Landing(disk, root, target) == Ok(full)
    requires Destination(disk, target, MAX_LINK_HOPS) != Ok(target)
    ensures full != [] ==> Aimed(disk, root, full, known, [])
  {
    var landing := Destination(disk, target, MAX_LINK_HOPS).value;
    known := RealPath(disk, Parent(landing)).value;
    DestinationIsNoLink(disk, target, MAX_LINK_HOPS);
    HeldNameAims(disk, root, landing, known, full);
  }

  /** `grown` is `disk` with directories added under `root`, and nothing else. */
  ghost predicate DirectoriesAdded(disk: Disk, grown: Disk, root: Path) {
    && (forall e | e in disk :: e in grown && grown[e] == disk[e])
    && (forall e | e in grown && e !in disk :: root < e && grown[e] == Dir)
  }

  /** The bytes are at one real path inside the root; all else is as it was, but for new directories. */
  ghost predicate Landed(disk: Disk, root: Path, w: Written, bytes: string, append: bool) {
    && root < w.at && WellFormed(w.disk) && w.at in w.disk && RealPath(w.disk, w.at) == Ok(w.at)
    && (w.at in disk ==> disk[w.at].File?)
    && w.disk[w.at] == File(if append && w.at in disk then disk[w.at].bytes + bytes else bytes)
    && DirectoriesAdded(disk - {w.at}, w.disk - {w.at}, root)
  }

  /** Making the parents of an aimed path leaves its name free or a plain file, inside the root. */
  lemma AimedWriteLands(disk: Disk, root: Path, full: Path, known: Path, more: Path, grown: Disk)
    requires WellFormed(disk) && Aimed(disk, root, full, known, more) && full != []
    requires MakeDirectories(disk, Parent(full)) == Ok(grown)
    ensures WellFormed(grown) && DirectoriesAdded(disk, grown, root)
    ensures var at := Follow(disk, known).at + more + BaseName(full);
            && root < at && !IsLink(grown, at) && IsDir(grown, Parent(at)) && Plain(at)
            && Follow(grown, Parent(full)) == Found(Parent(at))
            && Follow(grown, full) == if at in grown then Found(at) else Missing(at)
  {
    var d := Follow(disk, known).at;
    var n := full[|full| - 1];
    var at := d + more + BaseName(full);
    DirectoriesStayBelow(disk, known, more, grown);
    assert Parent(full) + [n] == full && at == (d + more) + [n];
    WalkLast(grown, [], Parent(full), n, MAX_SYSTEM_LINKS, true);
    assert !IsLink(grown, at) by {
      if more == [] {
        assert d + more == d;
      } else {
        assert Parent(at) == d + more;
        assert at in disk ==> Placed(disk, at);
        assert |at| > |d| + |more|;
      }
    }
    assert Placed(grown, d + more) && Parent(at) == d + more;
    assert root <= d < at;
  }

  ghost predicate LandsInside(disk: Disk, root: Path, grown: Disk, full: Path) {
    forall bytes, append ::
      var w := WriteFile(grown, full, bytes, append);
      w.Ok? ==> Landed(disk, root, w.value, bytes, append)
  }

  /**
   * Confinement of writes: whatever the links on the disk, when `resolvePath` answers and the parents
   * are made, nothing outside the real root has changed, and the bytes go to a real path inside it.
   */
  lemma WriteStaysInside(disk: Disk, rootPath: Path, root: Path, requested: string, grown: Disk)
    requires Rooted(disk, rootPath, root)
    requires ResolvePath(disk, rootPath, requested, true).Ok?
    requires MakeDirectories(disk, Parent(ResolvePath(disk, rootPath, requested, true).value)) == Ok(grown)
    ensures WellFormed(grown) && DirectoriesAdded(disk, grown, root)
    ensures LandsInside(disk, root, grown, ResolvePath(disk, rootPath, requested, true).value)
  {
    RealPathsAreReal(disk, rootPath);
    var target := ResolveText(root, Wanted(requested).value);
    var full := ResolvePath(disk, rootPath, requested, true).value;
    if full == [] {
      RealPathIsFixed(disk, [], false);
      RealPathIsFixed(disk, [], true);
    } else if Destination(disk, target, MAX_LINK_HOPS) == Ok(target) {
      DestinationIsNoLink(disk, target, MAX_LINK_HOPS);
      var known, more := PlainTargetAims(disk, root, target);
      AimedWriteStaysInside(disk, root, full, known, more, grown);
    } else {
      var known := LinkedTargetAims(disk, root, target, full);
      AimedWriteStaysInside(disk, root, full, known, [], grown);
    }
  }

  lemma AimedWriteStaysInside(disk: Disk, root: Path, full: Path, known: Path, more: Path, grown: Disk)
    requires WellFormed(disk) && root in disk && Aimed(disk, root, full, known, more) && full != []
    requires MakeDirectories(disk, Parent(full)) == Ok(grown)
    ensures WellFormed(grown) && DirectoriesAdded(disk, grown, root) && LandsInside(disk, root, grown, full)
  {
    AimedWriteLands(disk, root, full, known, more, grown);
    var at := Follow(disk, known).at + more + BaseName(full);
    forall bytes, append | WriteFile(grown, full, bytes, append).Ok?
      ensures Landed(disk, root, WriteFile(grown, full, bytes, append).value, bytes, append)
    {
      var w := WriteFile(grown, full, bytes, append).value;
      forall e | e in w.disk ensures Placed(w.disk, e) {
        assert e != at ==> Placed(grown, e);
      }
      RealPathIsFixed(w.disk, at, true);
    }
  }

  /**
   * What was written is what a read of the same request finds, whenever the name itself is not a
   * link: links above it, dangling or not, do not matter.
   */
  lemma WrittenIsReadBack(disk: Disk, rootPath: Path, root: Path, requested: string, grown: Disk, bytes: string, append: bool)
    requires Rooted(disk, rootPath, root) && Wanted(requested).Ok?
    requires LinkAt(disk, ResolveText(root, Wanted(requested).value)).Refused?
    requires ResolvePath(disk, rootPath, requested, true).Ok?
    requires MakeDirectories(disk, Parent(ResolvePath(disk, rootPath, requested, true).value)) == Ok(grown)
    requires WriteFile(grown, ResolvePath(disk, rootPath, requested, true).value, bytes, append).Ok?
    ensures var w := WriteFile(grown, ResolvePath(disk, rootPath, requested, true).value, bytes, append).value;
            ResolvePath(w.disk, rootPath, requested, false) == Ok(w.at)
  {
    RealPathsAreReal(disk, rootPath);
    var target := ResolveText(root, Wanted(requested).value);
    var w := WriteFile(grown, target, bytes, append).value;
    WriteStaysInside(disk, rootPath, root, requested, grown);
    assert Landed(disk, root, w, bytes, append);
    assert target != [] by { RealPathIsFixed(grown, [], true); }
    FollowsToItsBytes(disk, root, target, grown, w, bytes, append);
    WalkGrows(disk, w.disk, [], rootPath, MAX_SYSTEM_LINKS, true);
    assert Placed(w.disk, w.at);
    InsideIsPrefix(root, w.at);
  }

  lemma FollowsToItsBytes(disk: Disk, root: Path, target: Path, grown: Disk, w: Written, bytes: string, append: bool)
    requires WellFormed(disk) && Plain(root) && Plain(target) && target != []
    requires ResolveForWrite(disk, root, target) == Ok(target) && LinkAt(disk, target).Refused?
    requires MakeDirectories(disk, Parent(target)) == Ok(grown)
    requires WriteFile(grown, target, bytes, append) == Ok(w)
    ensures Follow(w.disk, target) == Found(w.at) && KeepsShape(disk, w.disk)
  {
    var known, more := PlainTargetAims(disk, root, target);
    AimedWriteLands(disk, root, target, known, more, grown);
    assert Parent(target) + [target[|target| - 1]] == target;
    WrittenIsFollowed(grown, target, bytes, append);
  }

  /** A request spelled as plain names joined by `/` names exactly that path under its base. */
  lemma {:induction false} PlainTextNames(base: Path, names: Path)
    requires Plain(names) && names != []
    ensures ResolveText(base, Join(names, "/")) == base + names
  {
    JoinSplits(names, '/');
    NormalisePlain(base, names);
    PlainTextLooksInside(names);
  }

  lemma {:induction false} NormalisePlain(base: Path, names: Path)
    requires Plain(names)
    ensures Normalise(base, names) == base + names
    decreases |names|
  {
    if names == [] {
      assert base + names == base;
    } else {
      assert PlainName(names[0]);
      NormalisePlain(base + [names[0]], names[1..]);
      assert base + names == base + [names[0]] + names[1..];
    }
  }

  /** A disk after a write was asked for, what was answered, and where bytes went if they did. */
  datatype Outcome = Outcome(disk: Disk, answer: Result<nat, Refusal>, at: Option<Path>)

  /** What every request to write comes to: each step's refusal is the answer, and what was made before it stays. */
  function WriteOutcome(disk: Disk, rootPath: Path, limits: Limits, requested: string, contents: string, append: bool): Outcome {
    if |contents| > limits.writeBytes then Outcome(disk, Refused(TooManyBytes), None)
    else
      match ResolvePath(disk, rootPath, requested, true)
      case Refused(why) => Outcome(disk, Refused(why), None)
      case Ok(full) =>
        match MakeDirectories(disk, Parent(full))
        case Refused(why) => Outcome(disk, Refused(System(why)), None)
        case Ok(grown) =>
          match WriteFile(grown, full, contents, append)
          case Refused(why) => Outcome(grown, Refused(System(why)), None)
          case Ok(written) => Outcome(written.disk, Ok(|contents|), Some(written.at))
  }

  /** `createWorkspace`, over a disk only its own calls change. */
  class Files {
    const rootPath: Path
    const limits: Limits
    var disk: Disk

    constructor (rootPath: Path, limits: Limits, disk: Disk)
      ensures this.rootPath == rootPath && this.limits == limits && this.disk == disk
    {
      this.rootPath, this.limits, this.disk := rootPath, limits, disk;
    }

    /** `resolvePath`, with its two walks. */
    method Resolve(requested: string, forWrite: bool) returns (r: Result<Path, Refusal>)
      ensures r == ResolvePath(disk, rootPath, requested, forWrite)
    {
      var wanted := Wanted(requested);
      if wanted.Refused? { return Refused(wanted.error); }
      var root := RealPath(disk, rootPath);
      if root.Refused? { return Refused(System(root.error)); }
      var target := ResolveText(root.value, wanted.value);
      if !Inside(root.value, target) { return Refused(OutsideWorkspace); }
      if !forWrite { return ResolveForRead(disk, root.value, target); }
      var anchor: Path;
      var holder := RealPath(disk, Parent(target));
      if holder.Ok? {
        anchor := holder.value;
      } else {
        var above := NearestExistingAncestor(disk, root.value, Parent(target));
        if above.Refused? { return above; }
        anchor := above.value;
      }
      if !Inside(root.value, anchor) { return Refused(OutsideWorkspace); }
      var landing := WriteDestination(disk, target);
      if landing.Refused? || landing.value == target { return landing; }
      holder := RealPath(disk, Parent(landing.value));
      if holder.Refused? { return Refused(LeadsNowhere); }
      if !Inside(root.value, holder.value) || !Inside(root.value, holder.value + BaseName(landing.value)) {
        return Refused(OutsideWorkspace);
      }
      return Ok(holder.value + BaseName(landing.value));
    }

    /**
     * However it ends, a write adds nothing but directories inside the root; when it succeeds, the
     * bytes are at one real path inside it, which held a file or nothing before.
     */
    method Write(requested: string, contents: string, append: bool) returns (r: Result<nat, Refusal>, ghost at: Option<Path>)
      requires WellFormed(disk) && Plain(rootPath)
      modifies this`disk
      ensures Outcome(disk, r, at) == WriteOutcome(old(disk), rootPath, limits, requested, contents, append)
      ensures WellFormed(disk) && (r.Ok? <==> at.Some?)
      ensures r.Ok? ==> r.value == |contents| <= limits.writeBytes
      ensures |contents| > limits.writeBytes ==> r == Refused(TooManyBytes) && disk == old(disk)
      ensures |contents| <= limits.writeBytes ==>
        var full := ResolvePath(old(disk), rootPath, requested, true);
        if full.Refused? then r == Refused(full.error) && disk == old(disk)
        else
          var grown := MakeDirectories(old(disk), Parent(full.value));
          if grown.Refused? then r == Refused(System(grown.error)) && disk == old(disk)
          else
            var written := WriteFile(grown.value, full.value, contents, append);
            if written.Refused? then r == Refused(System(written.error)) && disk == grown.value
            else r.Ok? && disk == written.value.disk && at == Some(written.value.at)
      ensures disk == old(disk) || RealPath(old(disk), rootPath).Ok?
      ensures disk != old(disk) && r.Refused? ==> DirectoriesAdded(old(disk), disk, RealPath(old(disk), rootPath).value)
      ensures r.Ok? ==>
        && RealPath(old(disk), rootPath).Ok?
        && Landed(old(disk), RealPath(old(disk), rootPath).value, Written(disk, at.value), contents, append)
    {
      at := None;
      if |contents| > limits.writeBytes { return Refused(TooManyBytes), at; }
      var full := Resolve(requested, true);
      if full.Refused? { return Refused(full.error), at; }
      var grown := MakeDirectories(disk, Parent(full.value));
      if grown.Refused? { return Refused(System(grown.error)), at; }
      WriteStaysInside(disk, rootPath, RealPath(disk, rootPath).value, requested, grown.value);
      disk := grown.value;
      var written := WriteFile(disk, full.value, contents, append);
      if written.Refused? { return Refused(System(written.error)), at; }
      disk, at := written.value.disk, Some(written.value.at);
      return Ok(|contents|), at;
    }

    /** What a read hands back is the start of one real file inside the root, and its whole size. */
    method Read(requested: string) returns (r: Result<(string, nat), Refusal>)
      requires WellFormed(disk) && Plain(rootPath)
      ensures match ResolvePath(disk, rootPath, requested, false)
        case Refused(why) => r == Refused(why)
        case Ok(at) => at in disk && if disk[at].File? then ReadAs(r, disk[at].bytes) else r == Refused(NotAFile)
    {
      var full := Resolve(requested, false);
      if full.Refused? { return Refused(full.error); }
      ReadStaysInside(disk, rootPath, RealPath(disk, rootPath).value, requested);
      match disk[full.value]
      case File(bytes) =>
        r := Ok((bytes[..if |bytes| <= limits.readBytes then |bytes| else limits.readBytes], |bytes|));
      case _ => r := Refused(NotAFile);
    }

    /** As much of a file as a read may give, and how much there is. */
    predicate ReadAs(r: Result<(string, nat), Refusal>, bytes: string)
      reads this
    {
      && r.Ok? && r.value.1 == |bytes| && r.value.0 <= bytes
      && |r.value.0| == if |bytes| <= limits.readBytes then |bytes| else limits.readBytes
    }
  }
}
