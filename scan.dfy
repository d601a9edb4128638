/**
 * Scanning a prospect's QR code (ProspectsView.handleScan): the scanned text is
 * split on newlines and, when it has exactly two lines, becomes a new prospect
 * in the shared store.
 */
module ScanHandling {
  import opened Wrappers
  import opened Strings
  import opened ProspectList
  import MeView

  /**
   * What the scanner sheet delivers, Swift's `Result<ScanResult, ScanError>`:
   * on success the scanned text (the `string` of the library's `ScanResult`),
   * on failure a description of the error.
   */
  datatype ScanOutcome = Success(text: string) | Failure(error: string)

  /**
   * The parsing step of `handleScan`: the name and email address read from a
   * scanned text, or nothing when the text does not have exactly two lines.
   */
  function DecodeScan(text: string): (r: Option<(string, string)>)
    ensures r.Some? <==> multiset(text)['\n'] == 1
    ensures r.Some? ==> text == r.value.0 + "\n" + r.value.1
    ensures r.Some? ==> '\n' !in r.value.0 && '\n' !in r.value.1
  {
    var details := Components(text, '\n');
    if |details| == 2 then
      assert details[1..] == [details[1]];
      assert Join(details, '\n') == details[0] + ['\n'] + details[1];
      Some((details[0], details[1]))
    else
      Option.None
  }

  /** The shared store of prospects, as far as the list and the scanner use it. */
  class Prospects {
    var people: seq<Prospect>

    constructor (people: seq<Prospect>)
      ensures this.people == people
    {
      this.people := people;
    }

    /** Adds one record; where in the list it goes is the store's business. */
    method Add(p: Prospect)
      modifies this
      ensures multiset(people) == old(multiset(people)) + multiset{p}
    {
      people := people + [p];
    }
  }

  /** The state of one prospects tab that the scanner touches. */
  class ProspectsScreen {
    const prospects: Prospects
    const filter: FilterType
    /** The contacted flag every newly made prospect record starts with. */
    const freshContacted: bool
    var sortSelection: SortType
    var isShowingScanner: bool

    constructor (prospects: Prospects, filter: FilterType, freshContacted: bool)
      ensures this.prospects == prospects && this.filter == filter && this.freshContacted == freshContacted
      ensures sortSelection == SortType.None && !isShowingScanner
    {
      this.prospects := prospects;
      this.filter := filter;
      this.freshContacted := freshContacted;
      sortSelection := SortType.None;
      isShowingScanner := false;
    }

    /** The `sortedProspects` this tab displays: its filter and its sort applied to the store. */
    function Displayed(): (r: seq<Prospect>)
      reads this, prospects
      ensures sortSelection != SortType.Alphabetical ==> r == FilteredProspects(prospects.people, filter)
      ensures forall p :: p in r ==> Keeps(filter, p) && p in prospects.people
      ensures forall p :: Keeps(filter, p) ==> multiset(r)[p] == multiset(prospects.people)[p]
      ensures sortSelection == SortType.Alphabetical ==> SortedByName(r)
    {
      SortedProspectsMembers(prospects.people, filter, sortSelection);
      SortedProspects(prospects.people, filter, sortSelection)
    }

    /**
     * `handleScan`: a text with exactly one newline adds one prospect with the
     * text before it as name and the text after it as email address, and closes
     * the scanner sheet. Any other text returns early: nothing is added and the
     * sheet stays as it was. A scanner failure adds nothing and closes the sheet.
     */
    method HandleScan(result: ScanOutcome)
      modifies prospects, this`isShowingScanner
      ensures result.Failure? || DecodeScan(result.text).Some? ==> !isShowingScanner
      ensures result.Success? && DecodeScan(result.text).None? ==> isShowingScanner == old(isShowingScanner)
      ensures result.Failure? ==> prospects.people == old(prospects.people)
      ensures result.Success? && DecodeScan(result.text).None? ==> prospects.people == old(prospects.people)
      ensures result.Success? && DecodeScan(result.text).Some? ==>
                var (name, email) := DecodeScan(result.text).value;
                multiset(prospects.people) == old(multiset(prospects.people)) + multiset{Prospect(name, email, freshContacted)}
    {
      match result {
        case Success(text) =>
          var details := Components(text, '\n');
          if |details| != 2 {
            return;
          }
          var person := Prospect(details[0], details[1], freshContacted);
          prospects.Add(person);
        case Failure(_) =>
      }
      isShowingScanner := false;
    }
  }

  /** Round trip: a payload whose fields have no newline splits into those fields, which the scanner recovers. */
  lemma PayloadRoundTrip(name: string, emailAddress: string)
    requires '\n' !in name && '\n' !in emailAddress
    ensures Components(MeView.Payload(name, emailAddress), '\n') == [name, emailAddress]
    ensures DecodeScan(MeView.Payload(name, emailAddress)) == Some((name, emailAddress))
  {
    ComponentsAfterFirst(name, emailAddress, '\n');
    ComponentsOfFree(emailAddress, '\n');
  }

  /** A newline inside either field makes the payload unreadable to the scanner. */
  lemma PayloadWithNewlineRejected(name: string, emailAddress: string)
    requires '\n' in name || '\n' in emailAddress
    ensures |Components(MeView.Payload(name, emailAddress), '\n')| > 2
    ensures DecodeScan(MeView.Payload(name, emailAddress)).None?
  {
    assert multiset(name)['\n'] > 0 || multiset(emailAddress)['\n'] > 0;
  }

  /** The card shown before any edit decodes to the default identity. */
  lemma DefaultPayloadDecodes()
    ensures DecodeScan(MeView.Payload(MeView.DefaultName, MeView.DefaultEmail))
            == Some((MeView.DefaultName, MeView.DefaultEmail))
  {
    var name, email := MeView.DefaultName, MeView.DefaultEmail;
    assert '\n' !in name && '\n' !in email;
    PayloadRoundTrip(name, email);
  }

  /** Empty lines count: a trailing newline is accepted, with an empty email address. */
  lemma DecodeTrailingNewline()
    ensures DecodeScan("a\n") == Some(("a", ""))
  {
    PayloadRoundTrip("a", "");
    assert MeView.Payload("a", "") == "a\n";
  }

  /** A text without a newline is rejected. */
  lemma DecodeOneLineRejected()
    ensures DecodeScan("OnlyOneLine").None?
  {
    assert '\n' !in "OnlyOneLine";
    ComponentsOfFree("OnlyOneLine", '\n');
  }

  /** A text with three lines is rejected. */
  lemma DecodeThreeLinesRejected()
    ensures DecodeScan("A\nB\nC").None?
  {
    assert multiset("A\nB\nC")['\n'] == 2;
  }
}
