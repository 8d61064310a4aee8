/**
 * The system calls the workspace is built on, over a disk of directories, files and symbolic links.
 *
 * Resolution is section 4.13, Pathname Resolution, of POSIX.1-2017 Base Definitions: a link in the
 * middle of a path is always followed, one at the end is followed unless the call says otherwise,
 * a relative link is read from the real directory that holds it, and a budget of links bounds the walk.
 */
module FileSystem {
  import opened Text

  /** Names from `/` down. A real path is one whose proper prefixes are all directories. */
  type Path = seq<string>

  datatype Node = Dir | File(bytes: string) | Link(text: string)

  type Disk = map<Path, Node>

  datatype Errno = NoEntry | NotDirectory | IsDirectory | Exists | TooManyLinks

  /** Where a walk ends: at something, at a free name in a real directory, or nowhere. */
  datatype Reach = Found(at: Path) | Missing(at: Path) | Failed(why: Errno)

  predicate PlainName(n: string) {
    n != "" && n != "." && n != ".." && '/' !in n
  }

  predicate Plain(p: Path) {
    forall n | n in p :: PlainName(n)
  }

  function Parent(p: Path): Path {
    if p == [] then [] else p[..|p| - 1]
  }

  predicate Placed(disk: Disk, p: Path) {
    p != [] ==> Plain(p) && Parent(p) in disk && disk[Parent(p)].Dir?
  }

  /** Every entry sits in a directory, and the root is one. */
  ghost predicate WellFormed(disk: Disk) {
    && [] in disk && disk[[]].Dir?
    && forall p {:trigger Placed(disk, p)} :: p in disk ==> Placed(disk, p)
  }

  predicate IsDir(disk: Disk, p: Path) {
    p in disk && disk[p].Dir?
  }

  predicate IsLink(disk: Disk, p: Path) {
    p in disk && disk[p].Link?
  }

  predicate IsAbsolute(text: string) {
    text != "" && text[0] == '/'
  }

  function Walk(disk: Disk, at: Path, rest: seq<string>, links: nat, followLast: bool): Reach
    decreases links, |rest|
  {
    if rest == [] then Found(at)
    else if !IsDir(disk, at) then Failed(NotDirectory)
    else if rest[0] == "" || rest[0] == "." then Walk(disk, at, rest[1..], links, followLast)
    else if rest[0] == ".." then Walk(disk, Parent(at), rest[1..], links, followLast)
    else
      var next := at + [rest[0]];
      if next !in disk then
        if |rest| == 1 then Missing(next) else Failed(NoEntry)
      else
        match disk[next]
        case Link(text) =>
          if |rest| == 1 && !followLast then Found(next)
          else if links == 0 then Failed(TooManyLinks)
          else Walk(disk, if IsAbsolute(text) then [] else at, Split(text, '/') + rest[1..], links - 1, followLast)
        case _ => Walk(disk, next, rest[1..], links, followLast)
  }

  /** Linux gives up on the fortieth link of one resolution. */
  const MAX_SYSTEM_LINKS: nat := 40

  function Follow(disk: Disk, p: Path): Reach {
    Walk(disk, [], p, MAX_SYSTEM_LINKS, true)
  }

  function NoFollow(disk: Disk, p: Path): Reach {
    Walk(disk, [], p, MAX_SYSTEM_LINKS, false)
  }

  function RealPath(disk: Disk, p: Path): Result<Path, Errno> {
    match Follow(disk, p)
    case Found(at) => Ok(at)
    case Missing(_) => Refused(NoEntry)
    case Failed(why) => Refused(why)
  }

  /** The text of the link at `p`, when `lstat` succeeds and finds one. */
  function LinkAt(disk: Disk, p: Path): Result<string, Errno> {
    match NoFollow(disk, p)
    case Found(at) => if IsLink(disk, at) then Ok(disk[at].text) else Refused(NoEntry)
    case _ => Refused(NoEntry)
  }

  function MakeDirectory(disk: Disk, p: Path): Result<Disk, Errno> {
    match NoFollow(disk, p)
    case Found(_) => Refused(Exists)
    case Missing(at) => Ok(disk[at := Dir])
    case Failed(why) => Refused(why)
  }

  function AcceptExisting(disk: Disk, p: Path): Result<Disk, Errno> {
    match RealPath(disk, p)
    case Ok(at) => if IsDir(disk, at) then Ok(disk) else Refused(Exists)
    case Refused(why) => Refused(why)
  }

  /** One `mkdir`, content with a directory that is already there. */
  function EnsureDirectory(disk: Disk, p: Path): Result<Disk, Errno> {
    match MakeDirectory(disk, p)
    case Ok(made) => Ok(made)
    case Refused(Exists) => AcceptExisting(disk, p)
    case Refused(why) => Refused(why)
  }

  /** `mkdir` with `recursive`: parents first, and a name already taken must lead to a directory. */
  function MakeDirectories(disk: Disk, p: Path): Result<Disk, Errno> {
    if p != [] && MakeDirectory(disk, p) == Refused(NoEntry) then
      match MakeDirectories(disk, Parent(p))
      case Refused(why) => Refused(why)
      case Ok(grown) => EnsureDirectory(grown, p)
    else EnsureDirectory(disk, p)
  }

  /** A disk after a write, and the real path the bytes reached. */
  datatype Written = Written(disk: Disk, at: Path)

  /** `writeFile`: opens through every link, the last one too, creating what is missing. */
  function WriteFile(disk: Disk, p: Path, bytes: string, append: bool): Result<Written, Errno> {
    match Follow(disk, p)
    case Failed(why) => Refused(why)
    case Missing(at) => Ok(Written(disk[at := File(bytes)], at))
    case Found(at) =>
      if at !in disk || !disk[at].File? then Refused(IsDirectory)
      else Ok(Written(disk[at := File(if append then disk[at].bytes + bytes else bytes)], at))
  }

  // ----- what a walk finds -----

  lemma PrefixInDisk(disk: Disk, p: Path, k: nat)
    requires WellFormed(disk) && p in disk && k <= |p|
    ensures p[..k] in disk && (k < |p| ==> IsDir(disk, p[..k]))
    decreases |p|
  {
    assert Placed(disk, p);
    if k < |p| {
      PrefixInDisk(disk, Parent(p), k);
      assert Parent(p)[..k] == p[..k];
    } else {
      assert p[..k] == p;
    }
  }

  /** What is found is on the disk and, when the last link is followed, is not a link. */
  lemma {:induction false} WalkFinds(disk: Disk, at: Path, rest: seq<string>, links: nat, followLast: bool)
    requires WellFormed(disk) && at in disk && !IsLink(disk, at)
    ensures var r := Walk(disk, at, rest, links, followLast);
            && (r.Found? ==> r.at in disk && (followLast ==> !IsLink(disk, r.at)))
            && (r.Missing? ==> r.at !in disk && r.at != [] && IsDir(disk, Parent(r.at)))
    decreases links, |rest|
  {
    if rest == [] || !IsDir(disk, at) {
    } else if rest[0] == "" || rest[0] == "." {
      WalkFinds(disk, at, rest[1..], links, followLast);
    } else if rest[0] == ".." {
      assert Placed(disk, at);
      WalkFinds(disk, Parent(at), rest[1..], links, followLast);
    } else {
      var next := at + [rest[0]];
      assert Parent(next) == at;
      if next in disk {
        match disk[next]
        case Link(text) =>
          if (|rest| != 1 || followLast) && links > 0 {
            WalkFinds(disk, if IsAbsolute(text) then [] else at, Split(text, '/') + rest[1..], links - 1, followLast);
          }
        case _ => WalkFinds(disk, next, rest[1..], links, followLast);
      }
    }
  }

  /** How the walk to `p + [n]` ends, given how the walk to `p` ends. */
  ghost predicate LastStep(disk: Disk, before: Reach, n: string, followLast: bool, after: Reach) {
    match before
    case Missing(_) => after == Failed(NoEntry)
    case Failed(why) => after == Failed(why)
    case Found(d) =>
      if !IsDir(disk, d) then after == Failed(NotDirectory)
      else if d + [n] !in disk then after == Missing(d + [n])
      else !IsLink(disk, d + [n]) || !followLast ==> after == Found(d + [n])
  }

  lemma {:induction false} WalkLast(disk: Disk, at: Path, p: seq<string>, n: string, links: nat, followLast: bool)
    requires PlainName(n)
    ensures LastStep(disk, Walk(disk, at, p, links, true), n, followLast, Walk(disk, at, p + [n], links, followLast))
    decreases links, |p|
  {
    var q := p + [n];
    if p == [] {
      assert q == [n] && q[1..] == [];
    } else if IsDir(disk, at) {
      assert q[0] == p[0] && q[1..] == p[1..] + [n];
      if p[0] == "" || p[0] == "." {
        WalkLast(disk, at, p[1..], n, links, followLast);
      } else if p[0] == ".." {
        WalkLast(disk, Parent(at), p[1..], n, links, followLast);
      } else {
        var next := at + [p[0]];
        if next in disk {
          match disk[next]
          case Link(text) =>
            if links > 0 {
              var spliced := Split(text, '/') + p[1..];
              assert Split(text, '/') + q[1..] == spliced + [n];
              WalkLast(disk, if IsAbsolute(text) then [] else at, spliced, n, links - 1, followLast);
            }
          case _ => WalkLast(disk, next, p[1..], n, links, followLast);
        }
      }
    }
  }

  /** A real path leads to itself. */
  lemma {:induction false} RealPathIsFixed(disk: Disk, p: Path, followLast: bool)
    requires WellFormed(disk) && p in disk
    requires followLast ==> !IsLink(disk, p)
    ensures Walk(disk, [], p, MAX_SYSTEM_LINKS, followLast) == Found(p)
    decreases |p|
  {
    if p != [] {
      assert Placed(disk, p);
      RealPathIsFixed(disk, Parent(p), true);
      WalkLast(disk, [], Parent(p), p[|p| - 1], MAX_SYSTEM_LINKS, followLast);
      assert Parent(p) + [p[|p| - 1]] == p;
    }
  }

  /** Every entry is still there, and only the contents of files may have changed. */
  ghost predicate KeepsShape(disk: Disk, grown: Disk) {
    forall e | e in disk :: e in grown && (grown[e] == disk[e] || (disk[e].File? && grown[e].File?))
  }

  /** Entries added elsewhere, or bytes written, do not change what a walk found. */
  lemma {:induction false} WalkGrows(disk: Disk, grown: Disk, at: Path, rest: seq<string>, links: nat, followLast: bool)
    requires KeepsShape(disk, grown)
    requires Walk(disk, at, rest, links, followLast).Found?
    ensures Walk(grown, at, rest, links, followLast) == Walk(disk, at, rest, links, followLast)
    decreases links, |rest|
  {
    if rest != [] {
      if rest[0] == "" || rest[0] == "." {
        WalkGrows(disk, grown, at, rest[1..], links, followLast);
      } else if rest[0] == ".." {
        WalkGrows(disk, grown, Parent(at), rest[1..], links, followLast);
      } else {
        var next := at + [rest[0]];
        match disk[next]
        case Link(text) =>
          if |rest| != 1 || followLast {
            WalkGrows(disk, grown, if IsAbsolute(text) then [] else at, Split(text, '/') + rest[1..], links - 1, followLast);
          }
        case _ => WalkGrows(disk, grown, next, rest[1..], links, followLast);
      }
    }
  }

  /** The budget left once `a` has been walked. */
  ghost function LinksLeft(disk: Disk, at: Path, a: seq<string>, links: nat): nat
    requires Walk(disk, at, a, links, true).Found?
    decreases links, |a|
  {
    if a == [] then links
    else if a[0] == "" || a[0] == "." then LinksLeft(disk, at, a[1..], links)
    else if a[0] == ".." then LinksLeft(disk, Parent(at), a[1..], links)
    else
      match disk[at + [a[0]]]
      case Link(text) =>
        LinksLeft(disk, if IsAbsolute(text) then [] else at, Split(text, '/') + a[1..], links - 1)
      case _ => LinksLeft(disk, at + [a[0]], a[1..], links)
  }

  /** A walk goes on from where its first part led, with the budget that part left. */
  lemma {:induction false} WalkResumes(disk: Disk, at: Path, a: seq<string>, b: seq<string>, links: nat)
    requires Walk(disk, at, a, links, true).Found?
    ensures Walk(disk, at, a + b, links, true) ==
            Walk(disk, Walk(disk, at, a, links, true).at, b, LinksLeft(disk, at, a, links), true)
    decreases links, |a|
  {
    if a == [] {
      assert a + b == b;
    } else {
      assert (a + b)[0] == a[0] && (a + b)[1..] == a[1..] + b;
      if a[0] == "" || a[0] == "." {
        WalkResumes(disk, at, a[1..], b, links);
      } else if a[0] == ".." {
        WalkResumes(disk, Parent(at), a[1..], b, links);
      } else {
        match disk[at + [a[0]]]
        case Link(text) =>
          assert Split(text, '/') + (a + b)[1..] == (Split(text, '/') + a[1..]) + b;
          WalkResumes(disk, if IsAbsolute(text) then [] else at, Split(text, '/') + a[1..], b, links - 1);
        case _ => WalkResumes(disk, at + [a[0]], a[1..], b, links);
      }
    }
  }

  lemma {:induction false} BiggerBudget(disk: Disk, at: Path, rest: seq<string>, links: nat, more: nat)
    requires links <= more && !Walk(disk, at, rest, links, true).Failed?
    ensures Walk(disk, at, rest, more, true) == Walk(disk, at, rest, links, true)
    decreases links, |rest|
  {
    if rest != [] {
      if rest[0] == "" || rest[0] == "." {
        BiggerBudget(disk, at, rest[1..], links, more);
      } else if rest[0] == ".." {
        BiggerBudget(disk, Parent(at), rest[1..], links, more);
      } else {
        var next := at + [rest[0]];
        if next in disk {
          match disk[next]
          case Link(text) =>
            BiggerBudget(disk, if IsAbsolute(text) then [] else at, Split(text, '/') + rest[1..], links - 1, more - 1);
          case _ => BiggerBudget(disk, next, rest[1..], links, more);
        }
      }
    }
  }

  /** The parts that are names. */
  function Names(parts: seq<string>): seq<string> {
    if parts == [] then []
    else if parts[0] == "" || parts[0] == "." then Names(parts[1..])
    else [parts[0]] + Names(parts[1..])
  }

  /** Where a walk succeeds, its empty and `.` parts could have been left out. */
  lemma {:induction false} OnlyNamesMatter(disk: Disk, at: Path, a: seq<string>, parts: seq<string>, links: nat)
    requires ".." !in parts && !Walk(disk, at, a + parts, links, true).Failed?
    ensures Walk(disk, at, a + Names(parts), links, true) == Walk(disk, at, a + parts, links, true)
    decreases links, |a| + |parts|, 1
  {
    if a == [] {
      assert a + parts == parts && a + Names(parts) == Names(parts);
      if parts != [] && (parts[0] == "" || parts[0] == ".") {
        assert [] + parts[1..] == parts[1..] && [] + Names(parts[1..]) == Names(parts[1..]);
        OnlyNamesMatter(disk, at, [], parts[1..], links);
      } else if parts != [] {
        assert parts == [parts[0]] + ([] + parts[1..]) && Names(parts) == [parts[0]] + ([] + Names(parts[1..]));
        OnlyNamesMatterPast(disk, at, parts[0], [], parts[1..], links);
      }
    } else {
      assert a + parts == [a[0]] + (a[1..] + parts) && a + Names(parts) == [a[0]] + (a[1..] + Names(parts));
      OnlyNamesMatterPast(disk, at, a[0], a[1..], parts, links);
    }
  }

  lemma {:induction false} OnlyNamesMatterPast(disk: Disk, at: Path, part: string, a: seq<string>, parts: seq<string>, links: nat)
    requires ".." !in parts && !Walk(disk, at, [part] + (a + parts), links, true).Failed?
    ensures Walk(disk, at, [part] + (a + Names(parts)), links, true) == Walk(disk, at, [part] + (a + parts), links, true)
    decreases links, |a| + |parts| + 1, 0
  {
    var rest, named := [part] + (a + parts), [part] + (a + Names(parts));
    assert rest[1..] == a + parts && named[1..] == a + Names(parts);
    if part == "" || part == "." {
      OnlyNamesMatter(disk, at, a, parts, links);
    } else if part == ".." {
      OnlyNamesMatter(disk, Parent(at), a, parts, links);
    } else {
      var next := at + [part];
      if next in disk {
        match disk[next]
        case Link(text) =>
          var here := Split(text, '/');
          assert here + rest[1..] == (here + a) + parts && here + named[1..] == (here + a) + Names(parts);
          OnlyNamesMatter(disk, if IsAbsolute(text) then [] else at, here + a, parts, links - 1);
        case _ => OnlyNamesMatter(disk, next, a, parts, links);
      }
    }
  }

  /** Once the free name a walk ended at is taken by a file, the walk finds the file. */
  lemma {:induction false} FreeNameIsFilled(disk: Disk, at: Path, rest: seq<string>, links: nat, m: Path, bytes: string)
    requires m !in disk && Walk(disk, at, rest, links, true) == Missing(m)
    ensures Walk(disk[m := File(bytes)], at, rest, links, true) == Found(m)
    decreases links, |rest|
  {
    var filled := disk[m := File(bytes)];
    assert IsDir(filled, at);
    if rest[0] == "" || rest[0] == "." {
      FreeNameIsFilled(disk, at, rest[1..], links, m, bytes);
    } else if rest[0] == ".." {
      FreeNameIsFilled(disk, Parent(at), rest[1..], links, m, bytes);
    } else {
      var next := at + [rest[0]];
      if next in disk {
        match disk[next]
        case Link(text) =>
          FreeNameIsFilled(disk, if IsAbsolute(text) then [] else at, Split(text, '/') + rest[1..], links - 1, m, bytes);
        case _ => FreeNameIsFilled(disk, next, rest[1..], links, m, bytes);
      } else {
        assert rest[1..] == [];
      }
    }
  }

  /** A walk that finds a file just put at a free name would have ended at the free name. */
  lemma {:induction false} FilledNameWasFree(disk: Disk, at: Path, rest: seq<string>, links: nat, m: Path, bytes: string)
    requires WellFormed(disk) && at in disk && m !in disk
    requires Walk(disk[m := File(bytes)], at, rest, links, true) == Found(m)
    ensures Walk(disk, at, rest, links, true) == Missing(m)
    decreases links, |rest|
  {
    if rest[0] == "" || rest[0] == "." {
      FilledNameWasFree(disk, at, rest[1..], links, m, bytes);
    } else if rest[0] == ".." {
      assert Placed(disk, at);
      FilledNameWasFree(disk, Parent(at), rest[1..], links, m, bytes);
    } else {
      var next := at + [rest[0]];
      if next in disk {
        match disk[next]
        case Link(text) =>
          FilledNameWasFree(disk, if IsAbsolute(text) then [] else at, Split(text, '/') + rest[1..], links - 1, m, bytes);
        case Dir => FilledNameWasFree(disk, next, rest[1..], links, m, bytes);
        case File(_) =>
      } else {
        assert next == m && |rest| == 1;
      }
    }
  }

  /** A real path is walked without following a link. */
  lemma {:induction false} RealPathIsFree(disk: Disk, at: Path, p: Path, links: nat)
    requires WellFormed(disk) && Plain(p) && at + p in disk && !IsLink(disk, at + p)
    ensures Walk(disk, at, p, links, true) == Found(at + p) && LinksLeft(disk, at, p, links) == links
    decreases |p|
  {
    if p == [] {
      assert at + p == at;
    } else {
      var next := at + [p[0]];
      assert next + p[1..] == at + p && (at + p)[..|at|] == at && (at + p)[..|at| + 1] == next;
      PrefixInDisk(disk, at + p, |at|);
      PrefixInDisk(disk, at + p, |at| + 1);
      assert PlainName(p[0]);
      RealPathIsFree(disk, next, p[1..], links);
    }
  }

  /** Bytes written to a name that is no link are where the same path leads afterwards. */
  lemma WrittenIsFollowed(disk: Disk, p: Path, bytes: string, append: bool)
    requires p != [] && PlainName(p[|p| - 1]) && Follow(disk, Parent(p)).Found?
    requires !IsLink(disk, Follow(disk, Parent(p)).at + [p[|p| - 1]])
    requires WriteFile(disk, p, bytes, append).Ok?
    ensures var w := WriteFile(disk, p, bytes, append).value;
            Follow(w.disk, p) == Found(w.at) && KeepsShape(disk, w.disk)
  {
    var w := WriteFile(disk, p, bytes, append).value;
    var n := p[|p| - 1];
    assert Parent(p) + [n] == p;
    WalkLast(disk, [], Parent(p), n, MAX_SYSTEM_LINKS, true);
    WalkGrows(disk, w.disk, [], Parent(p), MAX_SYSTEM_LINKS, true);
    WalkLast(w.disk, [], Parent(p), n, MAX_SYSTEM_LINKS, true);
  }

  // ----- what `mkdir -p` makes -----

  /** `grown` is `disk` with nothing but new directories below `base`, none deeper than `depth`. */
  ghost predicate OnlyNewDirectories(disk: Disk, grown: Disk, base: Path, depth: nat) {
    && (forall e | e in disk :: e in grown && grown[e] == disk[e])
    && (forall e | e in grown && e !in disk :: base < e && |e| <= depth && grown[e] == Dir)
  }

  /** A path that could not be resolved stays unresolved however much longer it gets. */
  lemma {:induction false} FailureSpreads(disk: Disk, p: Path, more: Path)
    requires Plain(more) && more != []
    requires !Follow(disk, p).Found?
    ensures Follow(disk, p + more).Failed?
    decreases |more|
  {
    var n := more[|more| - 1];
    assert p + more == (p + Parent(more)) + [n];
    if |more| > 1 {
      FailureSpreads(disk, p, Parent(more));
    } else {
      assert p + Parent(more) == p;
    }
    WalkLast(disk, [], p + Parent(more), n, MAX_SYSTEM_LINKS, true);
  }

  lemma FoundWithoutFollowing(disk: Disk, p: Path)
    requires WellFormed(disk) && Plain(p) && Follow(disk, p).Found?
    ensures NoFollow(disk, p).Found?
  {
    if p != [] {
      var n := p[|p| - 1];
      assert Parent(p) + [n] == p;
      WalkLast(disk, [], Parent(p), n, MAX_SYSTEM_LINKS, true);
      WalkLast(disk, [], Parent(p), n, MAX_SYSTEM_LINKS, false);
    }
  }

  /** `grown` is `disk` with the directories `p + more` needed below `d`, all of them new. */
  ghost predicate MadeBelow(disk: Disk, p: Path, d: Path, more: Path, grown: Disk) {
    && WellFormed(grown)
    && OnlyNewDirectories(disk, grown, d, |d| + |more|)
    && Follow(grown, p + more) == Found(d + more)
    && IsDir(grown, d + more)
    && (more != [] ==> d + more !in disk)
    && (more == [] ==> grown == disk)
  }

  /**
   * `mkdir -p` through the resolvable part `p` of a path makes directories only under the real
   * directory `p` leads to, and never through a dangling link.
   */
  lemma {:induction false} DirectoriesStayBelow(disk: Disk, p: Path, more: Path, grown: Disk)
    requires WellFormed(disk) && Plain(p) && Plain(more)
    requires Follow(disk, p).Found?
    requires more != [] ==> !Follow(disk, p + more[..1]).Found?
    requires MakeDirectories(disk, p + more) == Ok(grown)
    ensures MadeBelow(disk, p, Follow(disk, p).at, more, grown)
    decreases |more|
  {
    if more == [] {
      NoNewDirectory(disk, p, grown);
    } else if |more| == 1 {
      assert more[..1] == more;
      FirstNewDirectory(disk, p, more, grown);
    } else {
      assert p + more == (p + Parent(more)) + [more[|more| - 1]];
      assert Parent(more)[..1] == more[..1];
      var middle := ParentsMade(disk, p, Parent(more), more[|more| - 1], grown);
      DirectoriesStayBelow(disk, p, Parent(more), middle);
      NextNewDirectory(disk, middle, p, Follow(disk, p).at, more, grown);
    }
  }

  lemma NoNewDirectory(disk: Disk, p: Path, grown: Disk)
    requires WellFormed(disk) && Plain(p) && Follow(disk, p).Found?
    requires MakeDirectories(disk, p + []) == Ok(grown)
    ensures MadeBelow(disk, p, Follow(disk, p).at, [], grown)
  {
    assert p + [] == p && Follow(disk, p).at + [] == Follow(disk, p).at;
    FoundWithoutFollowing(disk, p);
  }

  /** A name that leads nowhere is either free, and then made, or a link, and then refused. */
  lemma FirstNewDirectory(disk: Disk, p: Path, one: Path, grown: Disk)
    requires WellFormed(disk) && Plain(one) && |one| == 1
    requires Follow(disk, p).Found? && !Follow(disk, p + one).Found?
    requires MakeDirectories(disk, p + one) == Ok(grown)
    ensures MadeBelow(disk, p, Follow(disk, p).at, one, grown)
  {
    var d := Follow(disk, p).at;
    assert one == [one[0]];
    WalkLast(disk, [], p, one[0], MAX_SYSTEM_LINKS, false);
    WalkLast(disk, [], p, one[0], MAX_SYSTEM_LINKS, true);
    assert MakeDirectory(disk, p + one) == Ok(grown);
    AddDirectory(disk, p, d, one[0]);
  }

  lemma NextNewDirectory(disk: Disk, middle: Disk, p: Path, d: Path, more: Path, grown: Disk)
    requires WellFormed(disk) && Plain(more) && |more| > 1
    requires MadeBelow(disk, p, d, Parent(more), middle)
    requires EnsureDirectory(middle, p + more) == Ok(grown)
    ensures MadeBelow(disk, p, d, more, grown)
  {
    var n := more[|more| - 1];
    assert p + more == (p + Parent(more)) + [n] && d + more == (d + Parent(more)) + [n];
    assert Parent(d + more) == d + Parent(more);
    assert d + more in disk ==> Placed(disk, d + more);
    assert d + more !in middle;
    WalkLast(middle, [], p + Parent(more), n, MAX_SYSTEM_LINKS, false);
    AddDirectory(middle, p + Parent(more), d + Parent(more), n);
  }

  /** Below an unresolvable name the parents are made first. */
  lemma ParentsMade(disk: Disk, p: Path, short: Path, n: string, grown: Disk) returns (middle: Disk)
    requires Plain(short) && short != [] && PlainName(n)
    requires !Follow(disk, p + short[..1]).Found?
    requires MakeDirectories(disk, (p + short) + [n]) == Ok(grown)
    ensures MakeDirectories(disk, p + short) == Ok(middle) && EnsureDirectory(middle, (p + short) + [n]) == Ok(grown)
  {
    if |short| > 1 {
      assert (p + short[..1]) + short[1..] == p + short;
      FailureSpreads(disk, p + short[..1], short[1..]);
    } else {
      assert p + short == p + short[..1];
    }
    WalkLast(disk, [], p + short, n, MAX_SYSTEM_LINKS, false);
    WalkLast(disk, [], p + short, n, MAX_SYSTEM_LINKS, true);
    assert Parent((p + short) + [n]) == p + short;
    middle := MakeDirectories(disk, p + short).value;
  }

  lemma AddDirectory(disk: Disk, p: Path, d: Path, n: string)
    requires WellFormed(disk) && PlainName(n)
    requires Follow(disk, p) == Found(d) && IsDir(disk, d) && d + [n] !in disk
    ensures var grown := disk[d + [n] := Dir];
            WellFormed(grown) && Follow(grown, p + [n]) == Found(d + [n])
  {
    var grown := disk[d + [n] := Dir];
    assert Parent(d + [n]) == d;
    forall e | e in grown ensures Placed(grown, e) {
      assert Placed(disk, if e == d + [n] then d else e);
    }
    WalkGrows(disk, grown, [], p, MAX_SYSTEM_LINKS, true);
    WalkLast(grown, [], p, n, MAX_SYSTEM_LINKS, true);
  }
}
