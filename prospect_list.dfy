/**
 * The displayed list of prospects (ProspectsView): the store's people are
 * first filtered by their contacted flag, then optionally sorted by name.
 */
module ProspectList {
  import opened Strings

  /** One tracked contact, as the list reads it. */
  datatype Prospect = Prospect(name: string, emailAddress: string, isContacted: bool)

  /** Which tab the list is shown in. */
  datatype FilterType = None | Contacted | Uncontacted

  /** The sort chosen in the "Sort Prospects" dialog. */
  datatype SortType = None | Alphabetical | MostRecent

  /** The navigation title of each tab. */
  function Title(filter: FilterType): string
  {
    match filter
    case None => "Everyone"
    case Contacted => "Contacted people"
    case Uncontacted => "Uncontacted people"
  }

  /** Each tab has its own title. */
  lemma TitleIdentifiesFilter(f: FilterType, g: FilterType)
    ensures Title(f) == Title(g) <==> f == g
  {
  }

  /** Whether a prospect belongs in the tab of `filter`. */
  predicate Keeps(filter: FilterType, p: Prospect)
  {
    match filter
    case None => true
    case Contacted => p.isContacted
    case Uncontacted => !p.isContacted
  }

  /** `a` occurs in `b` in the same order, possibly with gaps. */
  predicate IsSubsequence(a: seq<Prospect>, b: seq<Prospect>)
    decreases |b|
  {
    if a == [] then true
    else if b == [] then false
    else if a[0] == b[0] then IsSubsequence(a[1..], b[1..])
    else IsSubsequence(a, b[1..])
  }

  /** Swift's `people.filter { $0.isContacted == contacted }`. */
  function Where(people: seq<Prospect>, contacted: bool): (r: seq<Prospect>)
    ensures IsSubsequence(r, people)
    ensures forall i :: 0 <= i < |r| ==> r[i].isContacted == contacted
    ensures forall p :: multiset(r)[p] == if p.isContacted == contacted then multiset(people)[p] else 0
    decreases |people|
  {
    if people == [] then []
    else
      assert people == [people[0]] + people[1..];
      var rest := Where(people[1..], contacted);
      if people[0].isContacted == contacted then
        var r := [people[0]] + rest;
        assert r[1..] == rest;
        r
      else
        assert rest != [] ==> rest[0] != people[0];
        rest
  }

  /** The `filteredProspects` computed property. */
  function FilteredProspects(people: seq<Prospect>, filter: FilterType): (r: seq<Prospect>)
    ensures filter == FilterType.None ==> r == people
    ensures IsSubsequence(r, people)
    ensures forall i :: 0 <= i < |r| ==> Keeps(filter, r[i])
    ensures forall p :: multiset(r)[p] == if Keeps(filter, p) then multiset(people)[p] else 0
  {
    match filter
    case None => SubsequenceReflexive(people); people
    case Contacted => Where(people, true)
    case Uncontacted => Where(people, false)
  }

  lemma {:induction false} SubsequenceReflexive(s: seq<Prospect>)
    ensures IsSubsequence(s, s)
    decreases |s|
  {
    if s != [] {
      SubsequenceReflexive(s[1..]);
    }
  }

  /** The contacted and uncontacted tabs split the people between them. */
  lemma ContactedTabsPartition(people: seq<Prospect>)
    ensures multiset(FilteredProspects(people, Contacted)) + multiset(FilteredProspects(people, Uncontacted))
            == multiset(people)
    ensures |FilteredProspects(people, Contacted)| + |FilteredProspects(people, Uncontacted)| == |people|
  {
    var c := FilteredProspects(people, Contacted);
    var u := FilteredProspects(people, Uncontacted);
    assert multiset(c) + multiset(u) == multiset(people);
    assert |multiset(c) + multiset(u)| == |multiset(people)|;
  }

  /** Every name in `s` is at or after that of `first`. */
  predicate NamesFrom(first: Prospect, s: seq<Prospect>)
  {
    forall k :: 0 <= k < |s| ==> !Less(s[k].name, first.name)
  }

  /** Non-decreasing by name, for every pair of positions. */
  predicate SortedByName(s: seq<Prospect>)
  {
    forall i, j :: 0 <= i < j < |s| ==> !Less(s[j].name, s[i].name)
  }

  lemma PrependSorted(x: Prospect, s: seq<Prospect>)
    requires SortedByName(s) && NamesFrom(x, s)
    ensures SortedByName([x] + s)
  {
  }

  /** Inserting `x` before a sorted list whose head is not below it keeps it sorted. */
  lemma InsertFront(x: Prospect, s: seq<Prospect>)
    requires SortedByName(s)
    requires s == [] || !Less(s[0].name, x.name)
    ensures SortedByName([x] + s)
  {
    forall k | 0 <= k < |s| ensures !Less(s[k].name, x.name) {
      if k > 0 {
        NotLessTransitive(x.name, s[0].name, s[k].name);
      }
    }
    PrependSorted(x, s);
  }

  /** A head at or below the rest of a sorted list and below `x` stays below anything they hold. */
  lemma InsertBehind(h: Prospect, rest: seq<Prospect>, x: Prospect, t: seq<Prospect>)
    requires NamesFrom(h, rest) && Less(h.name, x.name)
    requires multiset(t) == multiset(rest) + multiset{x}
    ensures NamesFrom(h, t)
  {
    forall k | 0 <= k < |t| ensures !Less(t[k].name, h.name) {
      assert t[k] in multiset(t);
      if t[k] == x {
        LessAsymmetric(h.name, x.name);
      } else {
        assert t[k] in rest;
      }
    }
  }

  /** One step of insertion sort: `x` placed in a list sorted by name. */
  function InsertByName(x: Prospect, s: seq<Prospect>): (r: seq<Prospect>)
    requires SortedByName(s)
    ensures SortedByName(r)
    ensures multiset(r) == multiset(s) + multiset{x}
    decreases |s|
  {
    if s == [] || !Less(s[0].name, x.name) then
      InsertFront(x, s);
      [x] + s
    else
      assert s == [s[0]] + s[1..];
      var t := InsertByName(x, s[1..]);
      InsertBehind(s[0], s[1..], x, t);
      PrependSorted(s[0], t);
      [s[0]] + t
  }

  /** Swift's `sorted { $0.name < $1.name }`: a rearrangement in non-decreasing name order. */
  function SortByName(s: seq<Prospect>): (r: seq<Prospect>)
    ensures SortedByName(r)
    ensures multiset(r) == multiset(s)
    decreases |s|
  {
    if s == [] then []
    else
      assert s == [s[0]] + s[1..];
      InsertByName(s[0], SortByName(s[1..]))
  }

  /** The `sortedProspects` computed property: the list the view displays. */
  function SortedProspects(people: seq<Prospect>, filter: FilterType, sort: SortType): (r: seq<Prospect>)
    ensures sort != SortType.Alphabetical ==> r == FilteredProspects(people, filter)
    ensures sort == SortType.Alphabetical ==> SortedByName(r)
    ensures multiset(r) == multiset(FilteredProspects(people, filter))
  {
    match sort
    case None => FilteredProspects(people, filter)
    case Alphabetical => SortByName(FilteredProspects(people, filter))
    case MostRecent => FilteredProspects(people, filter)
  }

  /** Sorting never changes who is in the tab: exactly the people the filter keeps, as often as they occur. */
  lemma SortedProspectsMembers(people: seq<Prospect>, filter: FilterType, sort: SortType)
    ensures forall p :: p in SortedProspects(people, filter, sort) ==> Keeps(filter, p) && p in people
    ensures forall p :: Keeps(filter, p) ==> multiset(SortedProspects(people, filter, sort))[p] == multiset(people)[p]
    ensures |SortedProspects(people, filter, sort)| == |FilteredProspects(people, filter)|
  {
    var r := SortedProspects(people, filter, sort);
    var f := FilteredProspects(people, filter);
    forall p | p in r ensures Keeps(filter, p) && p in people {
      assert p in multiset(r);
      assert p in multiset(f);
    }
    assert |multiset(r)| == |multiset(f)|;
  }

  /** Names compare case-sensitively: capitals sort before lower case (ties in either order). */
  lemma AlphabeticalExample()
    ensures var alice := Prospect("alice", "a", false);
            var r := SortedProspects([Prospect("Bob", "b1", false), alice, Prospect("Bob", "b2", true)],
                                     FilterType.None, Alphabetical);
            |r| == 3 && r[0].name == "Bob" && r[1].name == "Bob" && r[2] == alice
  {
    var bob1, alice, bob2 := Prospect("Bob", "b1", false), Prospect("alice", "a", false), Prospect("Bob", "b2", true);
    var s := [bob1, alice, bob2];
    assert Less("Bob", "alice");
    LessIrreflexive("Bob");
    assert SortByName([bob2]) == [bob2] by {
      assert [bob2][1..] == [];
    }
    assert SortByName([alice, bob2]) == [bob2, alice] by {
      assert [alice, bob2][1..] == [bob2];
      assert InsertByName(alice, [bob2]) == [bob2] + InsertByName(alice, []);
    }
    assert s[1..] == [alice, bob2];
    assert SortByName(s) == InsertByName(bob1, [bob2, alice]);
  }
}
