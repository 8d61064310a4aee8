/** The walk over an accessibility tree, cut off at so many elements. */
module Snapshot {
  import opened Aria
  import opened Text

  const SNAPSHOT_ELEMENT_LIMIT := 200

  /** What the YAML is read as, every scalar a string; a mapping's entries in the order they are visited. */
  datatype Node = Scalar(text: string) | Nothing | Items(items: seq<Node>) | Mapping(entries: seq<Entry>)

  datatype Entry = Entry(key: string, value: Node)

  datatype Element = Element(
    ref: string,
    role: string,
    name: string,
    value: Option<string>,
    disabled: Option<bool>,
    checked: Option<bool>)

  predicate Interactive(role: string) {
    role in {"button", "checkbox", "combobox", "link", "listbox", "menuitem", "menuitemcheckbox", "menuitemradio",
             "option", "radio", "searchbox", "slider", "spinbutton", "switch", "tab", "textbox"}
  }

  predicate Checkable(role: string) {
    role in {"checkbox", "menuitemcheckbox", "menuitemradio", "radio", "switch"}
  }

  // ----- cutting a text where no character is split -----

  /** `cutAtCodeUnits`, on the code units. */
  function CutUnits(units: seq<int>, limit: nat): seq<int> {
    var sliced := if |units| <= limit then units else units[..limit];
    if sliced != [] && 0xd800 <= sliced[|sliced| - 1] <= 0xdbff then sliced[..|sliced| - 1] else sliced
  }

  /** The most whole characters that fit. */
  function Fitting(s: string, limit: nat): string {
    if s == "" || |Units(s[0])| > limit then "" else [s[0]] + Fitting(s[1..], limit - |Units(s[0])|)
  }

  lemma EncodedOneMore(c: char, rest: string)
    ensures Encoded([c] + rest) == Units(c) + Encoded(rest)
  {
    assert ([c] + rest)[1..] == rest;
  }

  /** A character is put before a text whose cut is known. */
  lemma CutOneMore(c: char, rest: string, limit: nat)
    requires |Units(c)| <= limit ==> CutUnits(Encoded(rest), limit - |Units(c)|) == Encoded(Fitting(rest, limit - |Units(c)|))
    ensures CutUnits(Units(c) + Encoded(rest), limit) == Encoded(Fitting([c] + rest, limit))
  {
    assert ([c] + rest)[1..] == rest;
    var first := Units(c);
    if |first| <= limit {
      CutFurther(first, Encoded(rest), limit - |first|);
      EncodedOneMore(c, Fitting(rest, limit - |first|));
    } else {
      CutInside(first, Encoded(rest), limit);
    }
  }

  /** The cut of a text's code units is the code units of the most characters that fit: none is split. */
  lemma {:induction false} CutSplitsNoCharacter(s: string, limit: nat)
    ensures CutUnits(Encoded(s), limit) == Encoded(Fitting(s, limit))
  {
    if s != "" {
      if |Units(s[0])| <= limit { CutSplitsNoCharacter(s[1..], limit - |Units(s[0])|); }
      CutOneMore(s[0], s[1..], limit);
      assert [s[0]] + s[1..] == s;
    }
  }

  lemma CutInside(first: seq<int>, rest: seq<int>, limit: nat)
    requires limit < |first| <= 2 && (|first| == 2 ==> 0xd800 <= first[0] <= 0xdbff)
    ensures CutUnits(first + rest, limit) == []
  {
    assert (first + rest)[..limit] == first[..limit];
  }

  lemma CutFurther(first: seq<int>, rest: seq<int>, left: nat)
    requires first != [] && !(0xd800 <= first[|first| - 1] <= 0xdbff)
    ensures CutUnits(first + rest, |first| + left) == first + CutUnits(rest, left)
  {
    var sliced := if |rest| <= left then rest else rest[..left];
    assert (if |first + rest| <= |first| + left then first + rest else (first + rest)[..|first| + left]) == first + sliced;
    if sliced != [] {
      assert (first + sliced)[..|first + sliced| - 1] == first + sliced[..|sliced| - 1];
    } else {
      assert first + sliced == first;
    }
  }

  // ----- one entry -----

  /** `toElement`, of a key or a bare entry; only a text beside it counts as its value. */
  function ToElement(d: Descriptor, beside: Option<Node>): Option<Element> {
    if !Interactive(d.role) || "ref" !in d.flags || d.flags["ref"] == "" then None
    else
      var value := if beside.Some? && beside.value.Scalar? && Trim(beside.value.text) != ""
        then Some(Fitting(Trim(beside.value.text), 200)) else None;
      var checked := if "checked" in d.flags then Some(d.flags["checked"] != "mixed" && d.flags["checked"] != "false")
                     else if Checkable(d.role) then Some(false) else None;
      Some(Element(d.flags["ref"], d.role, Fitting(d.name, 200), value, if "disabled" in d.flags then Some(true) else None, checked))
  }

  function Described(text: string, beside: Option<Node>): seq<Element> {
    match Parsed(text)
    case None => []
    case Some(d) => DescribedBy(d, beside)
  }

  function DescribedBy(d: Descriptor, beside: Option<Node>): seq<Element> {
    match ToElement(d, beside)
    case None => []
    case Some(element) => [element]
  }

  predicate Flagged(flags: seq<Flag>, key: string) {
    exists flag | flag in flags :: flag.key == key
  }

  /** What an element says of the control its descriptor's flags describe, and of a text beside it. */
  predicate Tells(e: Element, role: string, name: string, flags: seq<Flag>, ref: string, beside: Option<Node>) {
    && e.ref == ref && e.role == role && e.name == Fitting(name, 200)
    && (e.value.Some? <==> beside.Some? && beside.value.Scalar? && Trim(beside.value.text) != "")
    && (e.value.Some? ==> e.value.value == Fitting(Trim(beside.value.text), 200))
    && (e.disabled == Some(true) <==> Flagged(flags, "disabled")) && e.disabled != Some(false)
    && (e.checked == Some(true) <==> exists flag | flag in flags :: flag.key == "checked" && flag.value !in {"mixed", "false"})
    && (e.checked == None <==> !Checkable(role) && !Flagged(flags, "checked"))
  }

  /** What is printed is described as what was printed. */
  lemma PrintedIsDescribed(role: string, name: string, flags: seq<Flag>, beside: Option<Node>)
    requires PlainRole(role) && forall flag | flag in flags :: PlainFlag(flag)
    ensures Described(Printed(role, name, flags), beside) == DescribedBy(Descriptor(role, name, FlagMap(flags, map[])), beside)
  {
    PrintedIsParsed(role, name, flags);
  }

  /** A control is one element: its ref, its name, and whether it is ticked. */
  lemma ControlTells(role: string, name: string, flags: seq<Flag>, ref: string, beside: Option<Node>) returns (e: Element)
    requires Interactive(role) && Flag("ref", ref) in flags && ref != ""
    requires forall i, j | 0 <= i < j < |flags| :: flags[i].key != flags[j].key
    ensures Tells(e, role, name, flags, ref, beside) && DescribedBy(Descriptor(role, name, FlagMap(flags, map[])), beside) == [e]
  {
    FlagsAreFound(flags, ref);
    ControlIsElement(Descriptor(role, name, FlagMap(flags, map[])), beside);
    e := ToElement(Descriptor(role, name, FlagMap(flags, map[])), beside).value;
    if "checked" in FlagMap(flags, map[]) {
      assert Flag("checked", FlagMap(flags, map[])["checked"]) in flags;
    }
  }

  lemma FlagsAreFound(flags: seq<Flag>, ref: string)
    requires forall i, j | 0 <= i < j < |flags| :: flags[i].key != flags[j].key
    requires Flag("ref", ref) in flags
    ensures var all := FlagMap(flags, map[]);
      && "ref" in all && all["ref"] == ref && ("disabled" in all <==> Flagged(flags, "disabled"))
      && ("checked" in all <==> Flagged(flags, "checked"))
      && ("checked" in all ==> Flag("checked", all["checked"]) in flags)
      && forall flag | flag in flags && flag.key == "checked" :: flag.value == all["checked"]
  {
    var all := FlagMap(flags, map[]);
    DistinctFlagsAreKept(flags, map[]);
    assert Flag("ref", ref).key == "ref";
    if "checked" in all {
      var flag :| flag in flags && flag.key == "checked";
      assert flag == Flag("checked", all["checked"]);
    }
  }

  lemma ControlIsElement(d: Descriptor, beside: Option<Node>)
    requires Interactive(d.role) && "ref" in d.flags && d.flags["ref"] != ""
    ensures ToElement(d, beside).Some?
    ensures var e := ToElement(d, beside).value;
      && e.ref == d.flags["ref"] && e.role == d.role && e.name == Fitting(d.name, 200)
      && (e.value.Some? <==> beside.Some? && beside.value.Scalar? && Trim(beside.value.text) != "")
      && (e.value.Some? ==> e.value.value == Fitting(Trim(beside.value.text), 200))
      && (e.disabled == Some(true) <==> "disabled" in d.flags) && e.disabled != Some(false)
      && (e.checked == Some(true) <==> "checked" in d.flags && d.flags["checked"] !in {"mixed", "false"})
      && (e.checked == None <==> !Checkable(d.role) && "checked" !in d.flags)
  {
  }

  /** Anything else is no element: what cannot be acted on, and what has no ref to act on it by. */
  lemma OnlyControlsTell(d: Descriptor, beside: Option<Node>)
    ensures DescribedBy(d, beside) == [] <==> !Interactive(d.role) || "ref" !in d.flags || d.flags["ref"] == ""
  {
  }

  // ----- the whole tree, in the order it is walked -----

  predicate Nests(node: Node) {
    node.Items? || node.Mapping?
  }

  function Actionable(node: Node): seq<Element>
    decreases node
  {
    match node
    case Scalar(text) => Described(text, None)
    case Nothing => []
    case Items(items) => OfItems(items)
    case Mapping(entries) => OfEntries(entries)
  }

  function OfItems(items: seq<Node>): seq<Element>
    decreases items
  {
    if items == [] then [] else Actionable(items[0]) + OfItems(items[1..])
  }

  function OfEntries(entries: seq<Entry>): seq<Element>
    decreases entries
  {
    if entries == [] then [] else OfEntry(entries[0]) + OfEntries(entries[1..])
  }

  /** An entry before what is nested in it. */
  function OfEntry(entry: Entry): seq<Element>
    decreases entry
  {
    Described(entry.key, Some(entry.value)) + if Nests(entry.value) then Actionable(entry.value) else []
  }

  /** A text somewhere in the tree, with what is beside it: an entry's key, whatever its value, or a text alone. */
  ghost predicate Within(node: Node, text: string, beside: Option<Node>)
    decreases node
  {
    match node
    case Scalar(alone) => text == alone && beside == None
    case Nothing => false
    case Items(items) => exists i | 0 <= i < |items| :: Within(items[i], text, beside)
    case Mapping(entries) => exists i | 0 <= i < |entries| :: WithinEntry(entries[i], text, beside)
  }

  ghost predicate WithinEntry(entry: Entry, text: string, beside: Option<Node>)
    decreases entry
  {
    (text == entry.key && beside == Some(entry.value)) || (Nests(entry.value) && Within(entry.value, text, beside))
  }

  lemma FirstItem(items: seq<Node>)
    ensures items != [] ==> OfItems(items) == Actionable(items[0]) + OfItems(items[1..])
  {
  }

  lemma {:induction false} ItemsAreFlat(items: seq<Node>)
    ensures OfItems(items) == Flat(items, Actionable)
    decreases |items|
  {
    FirstItem(items);
    if items != [] { ItemsAreFlat(items[1..]); }
  }

  lemma FirstEntry(entries: seq<Entry>)
    ensures entries != [] ==> OfEntries(entries) == OfEntry(entries[0]) + OfEntries(entries[1..])
  {
  }

  lemma {:induction false} EntriesAreFlat(entries: seq<Entry>)
    ensures OfEntries(entries) == Flat(entries, OfEntry)
    decreases |entries|
  {
    FirstEntry(entries);
    if entries != [] { EntriesAreFlat(entries[1..]); }
  }

  lemma InItems(items: seq<Node>, e: Element)
    ensures e in OfItems(items) <==> exists i | 0 <= i < |items| :: e in Actionable(items[i])
  {
    ItemsAreFlat(items);
    InFlat(items, Actionable, e);
  }

  lemma InEntries(entries: seq<Entry>, e: Element)
    ensures e in OfEntries(entries) <==> exists i | 0 <= i < |entries| :: e in OfEntry(entries[i])
  {
    EntriesAreFlat(entries);
    InFlat(entries, OfEntry, e);
  }

  lemma {:induction false} AllAreMet(node: Node, text: string, beside: Option<Node>, e: Element)
    requires Within(node, text, beside) && e in Described(text, beside)
    ensures e in Actionable(node)
    decreases node
  {
    match node
    case Items(items) =>
      var i :| 0 <= i < |items| && Within(items[i], text, beside);
      AllAreMet(items[i], text, beside, e);
      InItems(items, e);
    case Mapping(entries) =>
      var i :| 0 <= i < |entries| && WithinEntry(entries[i], text, beside);
      if Nests(entries[i].value) && Within(entries[i].value, text, beside) { AllAreMet(entries[i].value, text, beside, e); }
      InEntries(entries, e);
    case _ =>
  }

  lemma {:induction false} MetIsWithin(node: Node, e: Element) returns (text: string, beside: Option<Node>)
    requires e in Actionable(node)
    ensures Within(node, text, beside) && e in Described(text, beside)
    decreases node
  {
    match node
    case Scalar(alone) => text, beside := alone, None;
    case Nothing =>
    case Items(items) =>
      InItems(items, e);
      var i :| 0 <= i < |items| && e in Actionable(items[i]);
      text, beside := MetIsWithin(items[i], e);
    case Mapping(entries) =>
      InEntries(entries, e);
      var i :| 0 <= i < |entries| && e in OfEntry(entries[i]);
      if e in Described(entries[i].key, Some(entries[i].value)) {
        text, beside := entries[i].key, Some(entries[i].value);
      } else {
        text, beside := MetIsWithin(entries[i].value, e);
      }
      assert WithinEntry(entries[i], text, beside);
  }

  /** However deep, what can be acted on is met, nested under another control or not; and nothing that is not there. */
  lemma ElementsAreThoseWithin(node: Node, e: Element)
    ensures e in Actionable(node) <==> exists text, beside :: Within(node, text, beside) && e in Described(text, beside)
  {
    if e in Actionable(node) { var text, beside := MetIsWithin(node, e); }
    if text, beside :| Within(node, text, beside) && e in Described(text, beside) { AllAreMet(node, text, beside, e); }
  }

  /** Of one entry: itself, and what is nested in it. */
  function Met(key: string, value: Node): seq<Element> {
    Described(key, Some(value)) + if Nests(value) then Actionable(value) else []
  }

  lemma ItemsJoin(a: seq<Node>, b: seq<Node>)
    ensures OfItems(a + b) == OfItems(a) + OfItems(b)
  {
    ItemsAreFlat(a);
    ItemsAreFlat(b);
    ItemsAreFlat(a + b);
    FlatJoins(a, b, Actionable);
  }

  lemma EntriesJoin(a: seq<Entry>, b: seq<Entry>)
    ensures OfEntries(a + b) == OfEntries(a) + OfEntries(b)
  {
    EntriesAreFlat(a);
    EntriesAreFlat(b);
    EntriesAreFlat(a + b);
    FlatJoins(a, b, OfEntry);
  }

  /** What comes first in the tree is met first, and an entry before what is nested in it. */
  lemma MetInOrder(a: seq<Node>, b: seq<Node>, c: seq<Entry>, d: seq<Entry>)
    ensures Actionable(Items(a + b)) == Actionable(Items(a)) + Actionable(Items(b))
    ensures Actionable(Mapping(c + d)) == Actionable(Mapping(c)) + Actionable(Mapping(d))
    ensures forall node :: Actionable(Items([node])) == Actionable(node)
    ensures forall key, value :: Actionable(Mapping([Entry(key, value)])) == Met(key, value)
  {
    ItemsJoin(a, b);
    EntriesJoin(c, d);
    forall node ensures OfItems([node]) == Actionable(node) {
      assert [node][1..] == [] && Actionable(node) + [] == Actionable(node);
    }
    forall key, value ensures OfEntries([Entry(key, value)]) == OfEntry(Entry(key, value)) {
      assert [Entry(key, value)][1..] == [] && OfEntry(Entry(key, value)) + [] == OfEntry(Entry(key, value));
    }
  }

  function First(all: seq<Element>): seq<Element> {
    if |all| <= SNAPSHOT_ELEMENT_LIMIT then all else all[..SNAPSHOT_ELEMENT_LIMIT]
  }

  /** The element a text describes, if it is one a Bot can act on. */
  method Describe(text: string, beside: Option<Node>) returns (element: Option<Element>)
    ensures Described(text, beside) == if element.Some? then [element.value] else []
  {
    var descriptor := ParseDescriptor(text);
    if descriptor.None? { return None; }
    element := ToElement(descriptor.value, beside);
  }

  lemma NextItems(items: seq<Node>, n: nat, met: seq<Element>)
    requires n < |items|
    ensures met + OfItems(items[n..]) == (met + Actionable(items[n])) + OfItems(items[n + 1..])
  {
    assert items[n..][1..] == items[n + 1..];
    Associates(met, Actionable(items[n]), OfItems(items[n + 1..]));
  }

  lemma NextEntries(entries: seq<Entry>, n: nat, met: seq<Element>)
    requires n < |entries|
    ensures met + OfEntries(entries[n..]) == (met + OfEntry(entries[n])) + OfEntries(entries[n + 1..])
  {
    assert entries[n..][1..] == entries[n + 1..];
    Associates(met, OfEntry(entries[n]), OfEntries(entries[n + 1..]));
  }

  class Walker {
    var elements: seq<Element>
    var truncated: bool

    constructor ()
      ensures Holds([])
    {
      elements, truncated := [], false;
    }

    /** Of everything met so far, the first so many are held, and it is known whether there were more. */
    ghost predicate Holds(all: seq<Element>)
      reads this
    {
      elements == First(all) && (truncated <==> |all| > SNAPSHOT_ELEMENT_LIMIT)
    }

    method Push(element: Element, ghost all: seq<Element>)
      requires Holds(all)
      modifies this
      ensures Holds(all + [element])
    {
      if |elements| >= SNAPSHOT_ELEMENT_LIMIT {
        truncated := true;
        return;
      }
      elements := elements + [element];
    }

    method Walk(node: Node, ghost all: seq<Element>)
      requires Holds(all)
      modifies this
      ensures Holds(all + Actionable(node))
      decreases node, 1
    {
      if truncated { return; }
      match node
      case Items(items) => WalkItems(items, all);
      case Scalar(text) =>
        var element := Describe(text, None);
        if element.Some? { Push(element.value, all); } else { assert all + [] == all; }
      case Mapping(entries) => WalkEntries(entries, all);
      case Nothing => assert all + [] == all;
    }

    method WalkItems(items: seq<Node>, ghost all: seq<Element>)
      requires Holds(all)
      modifies this
      ensures Holds(all + OfItems(items))
      decreases items, 0
    {
      ghost var met, goal := all, all + OfItems(items);
      for n := 0 to |items|
        invariant Holds(met) && met + OfItems(items[n..]) == goal
      {
        NextItems(items, n, met);
        Walk(items[n], met);
        met := met + Actionable(items[n]);
      }
      assert met + [] == met;
    }

    method WalkEntries(entries: seq<Entry>, ghost all: seq<Element>)
      requires Holds(all)
      modifies this
      ensures Holds(all + OfEntries(entries))
      decreases entries, 0
    {
      ghost var met, goal := all, all + OfEntries(entries);
      for n := 0 to |entries|
        invariant Holds(met) && met + OfEntries(entries[n..]) == goal
      {
        NextEntries(entries, n, met);
        WalkEntry(entries[n], met);
        met := met + OfEntry(entries[n]);
      }
      assert met + [] == met;
    }

    /** The body of the loop over a mapping: an entry is descended into whether or not it was actionable. */
    method WalkEntry(entry: Entry, ghost all: seq<Element>)
      requires Holds(all)
      modifies this
      ensures Holds(all + OfEntry(entry))
      decreases entry, 0
    {
      var element := Describe(entry.key, Some(entry.value));
      ghost var described := Described(entry.key, Some(entry.value));
      if element.Some? { Push(element.value, all); } else { assert all + [] == all; }
      if Nests(entry.value) {
        Walk(entry.value, all + described);
        Associates(all, described, Actionable(entry.value));
      } else {
        assert described + [] == described;
      }
    }
  }

  /** A tree that would not parse is no tree; of any other, the first elements in walking order, and whether there are more. */
  method ParseAriaSnapshot(tree: Option<Node>) returns (elements: seq<Element>, truncated: bool)
    ensures tree.None? ==> elements == [] && !truncated
    ensures tree.Some? ==> elements == First(Actionable(tree.value)) && (truncated <==> |Actionable(tree.value)| > SNAPSHOT_ELEMENT_LIMIT)
  {
    if tree.None? { return [], false; }
    var walker := new Walker();
    walker.Walk(tree.value, []);
    assert [] + Actionable(tree.value) == Actionable(tree.value);
    elements, truncated := walker.elements, walker.truncated;
  }
}
