/** The listing of a workspace: a walk down its folders, cut off at so many entries. */
module Listing {
  import opened Acceptance
  import opened FileSystem
  import opened Text
  import opened Workspace

  /** What reading a directory gives, in the order it gives it, each folder with what reading it gives in turn. */
  datatype Item = Item(name: string, kind: Kind)

  datatype Kind = Folder(items: seq<Item>) | Regular(bytes: Option<nat>) | Neither

  datatype Entry = FolderAt(path: string) | FileAt(path: string, bytes: Option<nat>)

  /** One turn of the walk's loop: an entry, or an item that is neither a file nor a folder. */
  datatype Visit = Shows(entry: Entry) | Passes

  /** A path as a Bot may name it, relative to the root. */
  function Shown(root: Path, full: Path): string {
    if |root| <= |full| then Join(full[|root|..], "/") else ""
  }

  /** Every turn of the walk, were it never cut off. */
  function Visits(root: Path, dir: Path, items: seq<Item>): seq<Visit>
    decreases items
  {
    if items == [] then [] else VisitsOf(root, dir, items[0]) + Visits(root, dir, items[1..])
  }

  function VisitsOf(root: Path, dir: Path, item: Item): seq<Visit>
    decreases item
  {
    var full := dir + [item.name];
    match item.kind
    case Folder(inner) => [Shows(FolderAt(Shown(root, full)))] + Visits(root, full, inner)
    case Regular(bytes) => [Shows(FileAt(Shown(root, full), bytes))]
    case Neither => [Passes]
  }

  function Entries(visits: seq<Visit>): seq<Entry> {
    if visits == [] then []
    else Entries(visits[..|visits| - 1]) + match visits[|visits| - 1] case Shows(entry) => [entry] case Passes => []
  }

  function First(entries: seq<Entry>, limit: nat): seq<Entry> {
    if |entries| <= limit then entries else entries[..limit]
  }

  /** Whether some turn comes round with the list already full. */
  predicate Cut(visits: seq<Visit>, limit: nat) {
    visits != [] && |Entries(visits[..|visits| - 1])| >= limit
  }

  /** When the listing says it is cut: there is more to show, or what comes last is not for showing. */
  lemma CutMeans(visits: seq<Visit>, limit: nat)
    ensures Cut(visits, limit) <==>
      |Entries(visits)| > limit || (|Entries(visits)| == limit && visits != [] && visits[|visits| - 1].Passes?)
  {
  }

  /**
   * A listing that is not said to be cut is complete; the converse fails exactly when a full list is followed by
   * nothing but what is not for showing.
   */
  lemma UncutIsWhole(visits: seq<Visit>, limit: nat)
    ensures !Cut(visits, limit) ==> First(Entries(visits), limit) == Entries(visits)
    ensures Cut(visits, limit) && First(Entries(visits), limit) == Entries(visits) <==>
      |Entries(visits)| == limit && visits != [] && visits[|visits| - 1].Passes?
  {
    CutMeans(visits, limit);
  }

  /** One file and one link, with room for one entry: all there is to show is shown, and it is said to be cut. */
  lemma WholeAndSaidToBeCut()
    ensures var visits := Visits([], [], [Item("a", Regular(Some(1))), Item("b", Neither)]);
      Cut(visits, 1) && First(Entries(visits), 1) == Entries(visits) == [FileAt("a", Some(1))]
  {
    var a, b := Item("a", Regular(Some(1))), Item("b", Neither);
    assert [a, b][1..] == [b] && [b][1..] == [];
    assert [] + ["a"] == ["a"] && ["a"][0..] == ["a"] && Shown([], ["a"]) == "a";
    assert VisitsOf([], [], a) == [Shows(FileAt("a", Some(1)))] && VisitsOf([], [], b) == [Passes];
    var visits := Visits([], [], [a, b]);
    assert Visits([], [], [b]) == [Passes];
    assert visits == [Shows(FileAt("a", Some(1))), Passes];
    assert visits[..1] == [Shows(FileAt("a", Some(1)))] && visits[..1][..0] == [];
  }

  function FolderFirst(root: Path, folder: Path, inner: seq<Item>): seq<Visit> {
    [Shows(FolderAt(Shown(root, folder)))] + Visits(root, folder, inner)
  }

  /** The walk takes the items of a folder in their order, and a folder before what is in it. */
  lemma WalkedInOrder(root: Path, dir: Path, a: seq<Item>, b: seq<Item>)
    ensures Visits(root, dir, a + b) == Visits(root, dir, a) + Visits(root, dir, b)
    ensures forall name, inner ::
      Visits(root, dir, [Item(name, Folder(inner))]) == FolderFirst(root, dir + [name], inner)
    ensures forall name, bytes ::
      Visits(root, dir, [Item(name, Regular(bytes))]) == [Shows(FileAt(Shown(root, dir + [name]), bytes))]
    ensures forall name :: Visits(root, dir, [Item(name, Neither)]) == [Passes]
  {
    VisitsJoin(root, dir, a, b);
    forall item ensures Visits(root, dir, [item]) == VisitsOf(root, dir, item) {
      assert [item][1..] == [] && VisitsOf(root, dir, item) + [] == VisitsOf(root, dir, item);
    }
  }

  lemma {:induction false} VisitsJoin(root: Path, dir: Path, a: seq<Item>, b: seq<Item>)
    ensures Visits(root, dir, a + b) == Visits(root, dir, a) + Visits(root, dir, b)
    decreases |a|
  {
    if a == [] {
      assert a + b == b;
    } else {
      VisitsJoin(root, dir, a[1..], b);
      assert (a + b)[0] == a[0] && (a + b)[1..] == a[1..] + b;
      Associates(VisitsOf(root, dir, a[0]), Visits(root, dir, a[1..]), Visits(root, dir, b));
    }
  }

  /** Turns of the walk that show something, and only those, make entries, in their order. */
  lemma {:induction false} EntriesJoin(a: seq<Visit>, b: seq<Visit>)
    ensures Entries(a + b) == Entries(a) + Entries(b)
    ensures forall entry :: Entries([Shows(entry)]) == [entry]
    ensures Entries([Passes]) == []
    decreases |b|
  {
    forall v: Visit ensures [v][..0] == [] {
    }
    if b == [] {
      assert a + b == a;
    } else {
      EntriesJoin(a, b[..|b| - 1]);
      assert a + b == a + b[..|b| - 1] + [b[|b| - 1]];
      OneMoreVisit(a + b[..|b| - 1], b[|b| - 1]);
    }
  }

  // ----- the walk -----

  lemma NextVisits(root: Path, dir: Path, items: seq<Item>, n: nat, all: seq<Visit>)
    requires n < |items|
    ensures all + Visits(root, dir, items[n..]) == (all + VisitsOf(root, dir, items[n])) + Visits(root, dir, items[n + 1..])
  {
    assert items[n..][1..] == items[n + 1..];
    Associates(all, VisitsOf(root, dir, items[n]), Visits(root, dir, items[n + 1..]));
  }

  lemma OneMoreVisit(visits: seq<Visit>, visit: Visit)
    ensures Entries(visits + [visit]) == Entries(visits) + if visit.Shows? then [visit.entry] else []
    ensures forall limit: nat :: Cut(visits + [visit], limit) <==> |Entries(visits)| >= limit
  {
    assert (visits + [visit])[..|visits|] == visits;
  }

  lemma {:induction false} EntriesGrow(visits: seq<Visit>, more: seq<Visit>)
    ensures Entries(visits) <= Entries(visits + more)
  {
    if more == [] {
      assert visits + more == visits;
    } else {
      EntriesGrow(visits, more[..|more| - 1]);
      OneMoreVisit(visits + more[..|more| - 1], more[|more| - 1]);
      assert visits + more == visits + more[..|more| - 1] + [more[|more| - 1]];
    }
  }

  lemma LastTurn(visits: seq<Visit>, more: seq<Visit>)
    requires more != []
    ensures (visits + more)[..|visits + more| - 1] == visits + more[..|more| - 1]
  {
  }

  /** A full list takes nothing more, and the next turn says so. */
  lemma FullIsCut(visits: seq<Visit>, more: seq<Visit>, limit: nat)
    requires |Entries(visits)| >= limit && (more != [] || Cut(visits, limit))
    ensures Cut(visits + more, limit) && First(Entries(visits + more), limit) == First(Entries(visits), limit)
  {
    EntriesGrow(visits, more);
    if more == [] {
      assert visits + more == visits;
    } else {
      EntriesGrow(visits, more[..|more| - 1]);
      LastTurn(visits, more);
    }
  }

  lemma CutIsFull(visits: seq<Visit>, limit: nat)
    requires Cut(visits, limit)
    ensures |Entries(visits)| >= limit
  {
  }

  class Walker {
    const root: Path
    const limit: nat
    var entries: seq<Entry>
    var truncated: bool

    constructor (root: Path, limit: nat)
      ensures this.root == root && this.limit == limit && Holds([])
    {
      this.root, this.limit := root, limit;
      entries, truncated := [], false;
    }

    /** After some turns, had there been no limit: the first so many entries, and whether a turn found the list full. */
    ghost predicate Holds(visits: seq<Visit>)
      reads this
    {
      entries == First(Entries(visits), limit) && truncated == Cut(visits, limit)
    }

    method Walk(dir: Path, items: seq<Item>, ghost visits: seq<Visit>)
      requires Holds(visits)
      modifies this
      ensures Holds(visits + Visits(root, dir, items))
      decreases items, 0
    {
      if truncated {
        CutIsFull(visits, limit);
        FullIsCut(visits, Visits(root, dir, items), limit);
        return;
      }
      ghost var met, goal := visits, visits + Visits(root, dir, items);
      for n := 0 to |items|
        invariant Holds(met) && met + Visits(root, dir, items[n..]) == goal
      {
        if |entries| >= limit {
          FullIsCut(met, Visits(root, dir, items[n..]), limit);
          truncated := true;
          return;
        }
        NextVisits(root, dir, items, n, met);
        Take(dir, items[n], met);
        met := met + VisitsOf(root, dir, items[n]);
      }
      assert met + [] == met;
    }

    /** The body of the walk's loop, once there is room. */
    method Take(dir: Path, item: Item, ghost visits: seq<Visit>)
      requires Holds(visits) && |entries| < limit
      modifies this
      ensures Holds(visits + VisitsOf(root, dir, item))
      decreases item, 0
    {
      var full := dir + [item.name];
      match item.kind
      case Folder(inner) =>
        ghost var shows := Shows(FolderAt(Shown(root, full)));
        OneMoreVisit(visits, shows);
        entries := entries + [FolderAt(Shown(root, full))];
        Associates(visits, [shows], Visits(root, full, inner));
        Walk(full, inner, visits + [shows]);
      case Regular(bytes) =>
        OneMoreVisit(visits, Shows(FileAt(Shown(root, full), bytes)));
        entries := entries + [FileAt(Shown(root, full), bytes)];
      case Neither =>
        OneMoreVisit(visits, Passes);
    }
  }

  // ----- what a listing says of the disk -----

  /** What reading directories gives, on a disk that does not change: each name below once, in any order. */
  ghost predicate IsTree(disk: Disk, at: Path, items: seq<Item>)
    decreases items
  {
    && (forall i, j | 0 <= i < j < |items| :: items[i].name != items[j].name)
    && (forall p | p in disk && p != [] && Parent(p) == at :: exists i | 0 <= i < |items| :: items[i].name == p[|p| - 1])
    && forall i | 0 <= i < |items| ::
         && at + [items[i].name] in disk
         && match items[i].kind
            case Folder(inner) => disk[at + [items[i].name]].Dir? && IsTree(disk, at + [items[i].name], inner)
            case Regular(bytes) => disk[at + [items[i].name]].File? && bytes == Some(|disk[at + [items[i].name]].bytes|)
            case Neither => disk[at + [items[i].name]].Link?
  }

  /** The entry a file or a folder of the disk has in a listing. */
  function EntryFor(disk: Disk, root: Path, p: Path): Entry
    requires p in disk
  {
    match disk[p]
    case File(bytes) => FileAt(Shown(root, p), Some(|bytes|))
    case _ => FolderAt(Shown(root, p))
  }

  lemma {:induction false} ShownIsListed(visits: seq<Visit>, entry: Entry)
    ensures entry in Entries(visits) <==> Shows(entry) in visits
  {
    if visits != [] {
      ShownIsListed(visits[..|visits| - 1], entry);
      assert visits == visits[..|visits| - 1] + [visits[|visits| - 1]];
    }
  }

  lemma {:induction false} ItemIsVisited(root: Path, dir: Path, items: seq<Item>, i: nat, visit: Visit)
    requires i < |items| && visit in VisitsOf(root, dir, items[i])
    ensures visit in Visits(root, dir, items)
    decreases items
  {
    if i > 0 { ItemIsVisited(root, dir, items[1..], i - 1, visit); }
  }

  lemma ItemOfChild(disk: Disk, at: Path, items: seq<Item>, name: string) returns (i: nat)
    requires IsTree(disk, at, items) && at + [name] in disk
    ensures i < |items| && items[i].name == name
  {
    var child := at + [name];
    assert Parent(child) == at && child[|child| - 1] == name;
    i :| 0 <= i < |items| && items[i].name == child[|child| - 1];
  }

  /** The name a path under a directory goes through. */
  lemma Towards(disk: Disk, at: Path, p: Path)
    requires WellFormed(disk) && p in disk && at < p
    ensures p[..|at| + 1] == at + [p[|at|]] && at + [p[|at|]] in disk
    ensures |p| > |at| + 1 ==> disk[at + [p[|at|]]].Dir?
  {
    PrefixInDisk(disk, p, |at| + 1);
    assert p[..|at| + 1] == at + [p[|at|]];
  }

  /** Every file and folder under the start is met, however deep. */
  lemma {:induction false} AllAreVisited(disk: Disk, root: Path, at: Path, items: seq<Item>, p: Path)
    requires WellFormed(disk) && IsTree(disk, at, items)
    requires p in disk && at < p && !disk[p].Link?
    ensures Shows(EntryFor(disk, root, p)) in Visits(root, at, items)
    decreases items
  {
    Towards(disk, at, p);
    var i := ItemOfChild(disk, at, items, p[|at|]);
    var child := at + [items[i].name];
    if child == p {
      assert Shows(EntryFor(disk, root, p)) in VisitsOf(root, at, items[i]);
    } else {
      assert items[i].kind.Folder? && child < p;
      AllAreVisited(disk, root, child, items[i].kind.items, p);
    }
    ItemIsVisited(root, at, items, i, Shows(EntryFor(disk, root, p)));
  }

  lemma {:induction false} VisitedIsItem(root: Path, dir: Path, items: seq<Item>, visit: Visit) returns (i: nat)
    requires visit in Visits(root, dir, items)
    ensures i < |items| && visit in VisitsOf(root, dir, items[i])
    decreases items
  {
    if visit in VisitsOf(root, dir, items[0]) {
      i := 0;
    } else {
      i := VisitedIsItem(root, dir, items[1..], visit);
      i := i + 1;
    }
  }

  /** Nothing else is: a shown entry is that of a file or a folder under the start. */
  lemma {:induction false} VisitedIsThere(disk: Disk, root: Path, at: Path, items: seq<Item>, entry: Entry) returns (p: Path)
    requires IsTree(disk, at, items) && Shows(entry) in Visits(root, at, items)
    ensures p in disk && at < p && !disk[p].Link? && entry == EntryFor(disk, root, p)
    decreases items
  {
    var i := VisitedIsItem(root, at, items, Shows(entry));
    p := at + [items[i].name];
    if items[i].kind.Folder? && entry != FolderAt(Shown(root, p)) {
      p := VisitedIsThere(disk, root, p, items[i].kind.items, entry);
    }
  }

  /** An entry says which path it is for. */
  lemma ShownOnce(disk: Disk, root: Path, p: Path, other: Path)
    requires Plain(p) && Plain(other) && root < p && root < other && p in disk && other in disk
    requires EntryFor(disk, root, p) == EntryFor(disk, root, other)
    ensures p == other
  {
    var a, b := p[|root|..], other[|root|..];
    assert forall n | n in a :: n in p;
    assert forall n | n in b :: n in other;
    JoinSplits(a, '/');
    JoinSplits(b, '/');
    assert p == root + a && other == root + b;
  }

  /** What is met under one item is under its path. */
  lemma MetUnder(disk: Disk, root: Path, at: Path, items: seq<Item>, i: nat, entry: Entry) returns (p: Path)
    requires IsTree(disk, at, items) && i < |items| && Shows(entry) in VisitsOf(root, at, items[i])
    ensures p in disk && at + [items[i].name] <= p && entry == EntryFor(disk, root, p)
    ensures items[i].kind.Folder? && Shows(entry) in VisitsOf(root, at, items[i])[1..] ==> at + [items[i].name] < p
  {
    p := at + [items[i].name];
    if items[i].kind.Folder? && Shows(entry) in VisitsOf(root, at, items[i])[1..] {
      assert VisitsOf(root, at, items[i])[1..] == Visits(root, p, items[i].kind.items);
      p := VisitedIsThere(disk, root, p, items[i].kind.items, entry);
    }
  }

  predicate NoneTwice(visits: seq<Visit>) {
    forall i, j | 0 <= i < j < |visits| && visits[i].Shows? :: visits[i] != visits[j]
  }

  lemma NoneTwiceJoined(a: seq<Visit>, b: seq<Visit>)
    requires NoneTwice(a) && NoneTwice(b) && forall v | v in a && v in b :: v.Passes?
    ensures NoneTwice(a + b)
  {
    forall i, j | 0 <= i < j < |a + b| && (a + b)[i].Shows? ensures (a + b)[i] != (a + b)[j] {
      if i < |a| <= j { assert a[i] in a && b[j - |a|] in b; }
    }
  }

  lemma {:induction false} ItemMetOnce(disk: Disk, root: Path, at: Path, items: seq<Item>, i: nat)
    requires WellFormed(disk) && root <= at && IsTree(disk, at, items) && i < |items|
    ensures NoneTwice(VisitsOf(root, at, items[i]))
    decreases items, 0
  {
    var child := at + [items[i].name];
    if items[i].kind.Folder? {
      var inner := Visits(root, child, items[i].kind.items);
      TreeMetOnce(disk, root, child, items[i].kind.items, 0);
      assert items[i].kind.items[0..] == items[i].kind.items;
      var head := Shows(FolderAt(Shown(root, child)));
      if head in inner {
        var p := VisitedIsThere(disk, root, child, items[i].kind.items, head.entry);
        assert Placed(disk, p) && Placed(disk, child);
        assert head.entry == EntryFor(disk, root, child);
        ShownOnce(disk, root, p, child);
      }
      NoneTwiceJoined([head], inner);
    }
  }

  /** However deep, no file and no folder is met twice. */
  lemma {:induction false} TreeMetOnce(disk: Disk, root: Path, at: Path, items: seq<Item>, n: nat)
    requires WellFormed(disk) && root <= at && IsTree(disk, at, items) && n <= |items|
    ensures NoneTwice(Visits(root, at, items[n..]))
    decreases items, 1, |items| - n
  {
    if n < |items| {
      assert items[n..][1..] == items[n + 1..];
      ItemMetOnce(disk, root, at, items, n);
      TreeMetOnce(disk, root, at, items, n + 1);
      forall v | v in VisitsOf(root, at, items[n]) && v in Visits(root, at, items[n + 1..]) ensures v.Passes? {
        if v.Shows? { NotMetByBoth(disk, root, at, items, n, v.entry); }
      }
      NoneTwiceJoined(VisitsOf(root, at, items[n]), Visits(root, at, items[n + 1..]));
    }
  }

  lemma ApartShown(disk: Disk, root: Path, at: Path, a: string, b: string, p: Path, other: Path)
    requires WellFormed(disk) && root <= at && a != b && at + [a] <= p && at + [b] <= other && p in disk && other in disk
    ensures EntryFor(disk, root, p) != EntryFor(disk, root, other)
  {
    assert Placed(disk, p) && Placed(disk, other);
    assert p[|at|] == a && other[|at|] == b;
    if EntryFor(disk, root, p) == EntryFor(disk, root, other) { ShownOnce(disk, root, p, other); }
  }

  lemma LaterItem(root: Path, at: Path, items: seq<Item>, n: nat, visit: Visit) returns (m: nat)
    requires n < |items| && visit in Visits(root, at, items[n + 1..])
    ensures n < m < |items| && visit in VisitsOf(root, at, items[m])
  {
    var k := VisitedIsItem(root, at, items[n + 1..], visit);
    m := n + 1 + k;
    assert items[n + 1..][k] == items[m];
  }

  lemma NamesDiffer(disk: Disk, at: Path, items: seq<Item>, n: nat, m: nat)
    requires IsTree(disk, at, items) && n < m < |items|
    ensures items[n].name != items[m].name
  {
  }

  lemma NotMetByBoth(disk: Disk, root: Path, at: Path, items: seq<Item>, n: nat, entry: Entry)
    requires WellFormed(disk) && root <= at && IsTree(disk, at, items) && n < |items|
    requires Shows(entry) in VisitsOf(root, at, items[n])
    ensures Shows(entry) !in Visits(root, at, items[n + 1..])
  {
    if Shows(entry) in Visits(root, at, items[n + 1..]) {
      var m := LaterItem(root, at, items, n, Shows(entry));
      NamesDiffer(disk, at, items, n, m);
      var p := MetUnder(disk, root, at, items, n, entry);
      var other := MetUnder(disk, root, at, items, m, entry);
      ApartShown(disk, root, at, items[n].name, items[m].name, p, other);
    }
  }

  lemma {:induction false} EntriesOnce(visits: seq<Visit>)
    requires NoneTwice(visits)
    ensures forall i, j | 0 <= i < j < |Entries(visits)| :: Entries(visits)[i] != Entries(visits)[j]
  {
    if visits != [] {
      var front, last := visits[..|visits| - 1], visits[|visits| - 1];
      EntriesOnce(front);
      if last.Shows? {
        ShownIsListed(front, last.entry);
        assert forall i | 0 <= i < |front| :: front[i] == visits[i];
      }
    }
  }

  /** A listing not said to be cut has an entry for every file and folder under the start, once, and for nothing else. */
  lemma UncutListsTheDisk(disk: Disk, root: Path, start: Path, items: seq<Item>, limit: nat)
    requires WellFormed(disk) && root <= start && IsTree(disk, start, items) && !Cut(Visits(root, start, items), limit)
    ensures var entries := First(Entries(Visits(root, start, items)), limit);
      && (forall i, j | 0 <= i < j < |entries| :: entries[i] != entries[j])
      && forall entry :: entry in entries <==> exists p :: p in disk && start < p && !disk[p].Link? && entry == EntryFor(disk, root, p)
  {
    var visits := Visits(root, start, items);
    UncutIsWhole(visits, limit);
    assert items[0..] == items;
    TreeMetOnce(disk, root, start, items, 0);
    EntriesOnce(visits);
    forall entry ensures entry in Entries(visits) <==>
      exists p :: p in disk && start < p && !disk[p].Link? && entry == EntryFor(disk, root, p) {
      ListsTheDisk(disk, root, start, items, entry);
    }
  }

  lemma ListsTheDisk(disk: Disk, root: Path, start: Path, items: seq<Item>, entry: Entry)
    requires WellFormed(disk) && IsTree(disk, start, items)
    ensures entry in Entries(Visits(root, start, items))
      <==> exists p :: p in disk && start < p && !disk[p].Link? && entry == EntryFor(disk, root, p)
  {
    var visits := Visits(root, start, items);
    ShownIsListed(visits, entry);
    if Shows(entry) in visits {
      var p := VisitedIsThere(disk, root, start, items, entry);
    }
    if p :| p in disk && start < p && !disk[p].Link? && entry == EntryFor(disk, root, p) {
      AllAreVisited(disk, root, start, items, p);
    }
  }

  // ----- the call -----

  datatype ListRefusal = NotResolved(why: Refusal) | NoFolder | IsAFile

  /** Where a listing starts: the root for `.` or nothing, else as a read would resolve it. */
  function StartOf(disk: Disk, rootPath: Path, requested: string): Result<Path, Refusal> {
    match RealPath(disk, rootPath)
    case Refused(why) => Refused(System(why))
    case Ok(root) =>
      if requested == "." || Trim(requested) == "" then Ok(root) else ResolvePath(disk, rootPath, requested, false)
  }

  /** A listing starts at a real directory or file under the real root. */
  lemma StartIsReal(disk: Disk, rootPath: Path, requested: string)
    requires WellFormed(disk) && Plain(rootPath) && StartOf(disk, rootPath, requested).Ok?
    ensures var start := StartOf(disk, rootPath, requested).value;
      RealPath(disk, rootPath).Ok? && RealPath(disk, rootPath).value <= start && Follow(disk, start) == Found(start)
  {
    if requested == "." || Trim(requested) == "" {
      RealPathsAreReal(disk, rootPath);
    } else {
      ReadStaysInside(disk, rootPath, RealPath(disk, rootPath).value, requested);
    }
  }

  /**
   * What a listing shows can be asked for: where a path is taken as it is spelled, which its own ends being blank or a
   * `..` between backslashes would prevent, it names just the file or folder it was shown for, to read, write and list.
   */
  lemma ListedIsFoundAgain(disk: Disk, rootPath: Path, root: Path, p: Path)
    requires Rooted(disk, rootPath, root) && p in disk && root < p && !disk[p].Link?
    requires Wanted(Shown(root, p)) == Ok(Shown(root, p))
    ensures ResolvePath(disk, rootPath, Shown(root, p), false) == Ok(p)
    ensures ResolvePath(disk, rootPath, Shown(root, p), true) == Ok(p)
    ensures StartOf(disk, rootPath, Shown(root, p)) == Ok(p)
  {
    ShownNames(disk, root, p);
    LeadsToItself(disk, p);
    ReadIsAccepted(disk, rootPath, root, Shown(root, p), p);
    HolderIsInside(disk, root, p);
    PlainWriteIsAccepted(disk, rootPath, root, Shown(root, p));
    StartAsRead(disk, rootPath, root, Shown(root, p));
  }

  /** However a path is spelled, it is found again exactly when what a request makes of it leads there. */
  lemma ListedIsFoundWhen(disk: Disk, rootPath: Path, root: Path, p: Path)
    requires Rooted(disk, rootPath, root) && p in disk && root < p && !disk[p].Link?
    ensures var wanted := Wanted(Shown(root, p));
      ResolvePath(disk, rootPath, Shown(root, p), false) == Ok(p) <==>
        wanted.Ok? && RealPath(disk, ResolveText(root, wanted.value)) == Ok(p)
  {
    if Wanted(Shown(root, p)).Ok? { ReadIsAccepted(disk, rootPath, root, Shown(root, p), p); }
  }

  /** A file whose name ends in a blank is shown so, and not found when it is asked for: the request is trimmed. */
  lemma BlankEndIsNotFound(disk: Disk, rootPath: Path, root: Path)
    requires Rooted(disk, rootPath, root) && root + ["a "] in disk && disk[root + ["a "]].File? && root + ["a"] !in disk
    ensures Shown(root, root + ["a "]) == "a " && ResolvePath(disk, rootPath, "a ", false) == Refused(NoSuchFile)
  {
    assert (root + ["a "])[|root|..] == ["a "] && Join(["a "], "/") == "a ";
    BlankIsTrimmed("a ");
    var a := "a ";
    assert a[..1] == "a";
    BesideNames(root, "a");
    RealPathsAreReal(disk, rootPath);
    assert Parent(root + ["a"]) == root;
    WalkLast(disk, [], root, "a", MAX_SYSTEM_LINKS, true);
    ReadIsAccepted(disk, rootPath, root, "a ", root);
  }

  lemma BlankIsTrimmed(text: string)
    requires |text| == 2 && text[0] == 'a' && text[1] == ' '
    ensures Wanted(text) == Ok(text[..1])
  {
    assert TrimStart(text) == text;
    assert !IsSpace(text[..1][0]) && TrimEnd(text) == TrimEnd(text[..1]) == text[..1];
    OnePart(text[..1], {'/', '\\'});
  }

  lemma OnePart(text: string, at: set<char>)
    requires |text| == 1 && text[0] !in at
    ensures SplitAny(text, at) == [text]
  {
    assert text[1..] == "" && SplitAny(text[1..], at) == [""];
    assert [text[0]] + "" == text;
  }

  lemma ShownNames(disk: Disk, root: Path, p: Path)
    requires WellFormed(disk) && p in disk && root < p
    ensures ResolveText(root, Shown(root, p)) == p && Shown(root, p) != "."
  {
    assert Placed(disk, p);
    var names := p[|root|..];
    assert p == root + names;
    forall n | n in names ensures PlainName(n) {
      assert n in p;
    }
    PlainTextNames(root, names);
    NotADot(names);
  }

  lemma LeadsToItself(disk: Disk, p: Path)
    requires WellFormed(disk) && p in disk && !disk[p].Link?
    ensures RealPath(disk, p) == Ok(p) && LinkAt(disk, p).Refused?
  {
    RealPathIsFixed(disk, p, true);
    RealPathIsFixed(disk, p, false);
  }

  lemma StartAsRead(disk: Disk, rootPath: Path, root: Path, requested: string)
    requires RealPath(disk, rootPath) == Ok(root) && Wanted(requested) == Ok(requested) && requested != "."
    ensures StartOf(disk, rootPath, requested) == ResolvePath(disk, rootPath, requested, false)
  {
  }

  lemma HolderIsInside(disk: Disk, root: Path, p: Path)
    requires WellFormed(disk) && p in disk && root < p
    ensures HeldInside(disk, root, p)
  {
    assert Placed(disk, p);
    RealPathIsFixed(disk, Parent(p), true);
    assert Parent(p)[..|Parent(p)|] == Parent(p) && Nearest(disk, Parent(p), |Parent(p)|);
    assert Parent(p)[..|root|] == root;
  }

  lemma NotADot(names: Path)
    requires names != [] && Plain(names)
    ensures Join(names, "/") != "."
  {
    var name := names[0];
    assert name in names && PlainName(name) && name <= Join(names, "/");
  }

  /** A request that names nothing, or `.`, lists the whole workspace. */
  lemma NothingNamedListsTheRoot(disk: Disk, rootPath: Path, root: Path, requested: string)
    requires RealPath(disk, rootPath) == Ok(root) && (requested == "." || Trim(requested) == "")
    ensures StartOf(disk, rootPath, requested) == Ok(root)
  {
  }

  /** The root's real path and the directory to walk. */
  method FindStart(disk: Disk, rootPath: Path, requested: string) returns (r: Result<(Path, Path), ListRefusal>)
    requires WellFormed(disk) && Plain(rootPath)
    ensures StartOf(disk, rootPath, requested).Refused? ==> r == Refused(NotResolved(StartOf(disk, rootPath, requested).error))
    ensures StartOf(disk, rootPath, requested).Ok? ==>
      if IsDir(disk, StartOf(disk, rootPath, requested).value) then r.Ok? else r == Refused(IsAFile)
    ensures r.Ok? ==>
      && Ok(r.value.0) == RealPath(disk, rootPath) && r.value.0 <= r.value.1
      && StartOf(disk, rootPath, requested) == Ok(r.value.1)
  {
    var start := StartOf(disk, rootPath, requested);
    if start.Refused? { return Refused(NotResolved(start.error)); }
    StartIsReal(disk, rootPath, requested);
    match Follow(disk, start.value) {
      case Found(at) => r := if IsDir(disk, at) then Ok((RealPath(disk, rootPath).value, start.value)) else Refused(IsAFile);
      case _ => r := Refused(NoFolder);
    }
  }

  /** The listing of a directory `tree` describes: inside the root, in walking order, and cut where it says so. */
  method List(disk: Disk, rootPath: Path, requested: string, limit: nat, tree: seq<Item>)
    returns (r: Result<(seq<Entry>, bool), ListRefusal>)
    requires WellFormed(disk) && Plain(rootPath)
    requires StartOf(disk, rootPath, requested).Ok? && IsDir(disk, StartOf(disk, rootPath, requested).value) ==>
      IsTree(disk, StartOf(disk, rootPath, requested).value, tree)
    ensures StartOf(disk, rootPath, requested).Refused? ==> r == Refused(NotResolved(StartOf(disk, rootPath, requested).error))
    ensures StartOf(disk, rootPath, requested).Ok? ==>
      if IsDir(disk, StartOf(disk, rootPath, requested).value) then r.Ok? else r == Refused(IsAFile)
    ensures r.Ok? ==>
      var root, start := RealPath(disk, rootPath).value, StartOf(disk, rootPath, requested).value;
      && root <= start && r.value.0 == First(Entries(Visits(root, start, tree)), limit)
      && r.value.1 == Cut(Visits(root, start, tree), limit)
  {
    var found := FindStart(disk, rootPath, requested);
    if found.Refused? { return Refused(found.error); }
    var root, start := found.value.0, found.value.1;
    var walker := new Walker(root, limit);
    walker.Walk(start, tree, []);
    assert [] + Visits(root, start, tree) == Visits(root, start, tree);
    r := Ok((walker.entries, walker.truncated));
  }
}
