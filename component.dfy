/**
 * The state and event handlers of the pincode fetcher component: the five
 * state slots, the handlers that update them, and the rule that picks what
 * the right-hand pane shows. The network lookup is an input: each call of
 * HandleFetch is given the outcome of the request it issues.
 */
module Component {
  import opened Wrappers
  import opened JsBuiltins
  import opened PostOfficeFilter

  datatype Severity = Success | Error

  /** The toast notification: a single slot that a new message overwrites. */
  datatype Snackbar = Snackbar(open: bool, message: string, severity: Severity)

  /** What the awaited request and its JSON decoding produced: the decoded array, or a thrown error. */
  datatype FetchOutcome = Fetched(data: seq<LookupResult>) | Failed

  /** What the right-hand pane shows below the search bar. */
  datatype View = Spinner | Cards(offices: seq<PostOffice>) | NoNameFound | Placeholder

  const LookupEndpoint: string := "https://api.postalpincode.in/pincode/"
  const FetchedMessage: string := "Data fetched successfully!"
  const FailedMessage: string := "Failed to fetch data!"

  /** The spinner while loading; otherwise cards, the empty-state message, or the placeholder when there is no result. */
  function SelectView(loading: bool, result: Option<LookupResult>, filtered: seq<PostOffice>): (v: View)
    ensures v.Spinner? <==> loading
    ensures v.Cards? <==> !loading && result.Some? && filtered != []
    ensures v.Cards? ==> v.offices == filtered
    ensures v.NoNameFound? <==> !loading && result.Some? && filtered == []
    ensures v.Placeholder? <==> !loading && result.None?
  {
    if loading then Spinner
    else if result.None? then Placeholder
    else if |filtered| > 0 then Cards(filtered)
    else NoNameFound
  }

  /** A result that carries offices shows all of them as cards once the search term is empty. */
  lemma FreshResultShowsAllOffices(result: Option<LookupResult>, offices: seq<PostOffice>)
    requires OfficesOf(result) == Some(offices) && offices != []
    ensures SelectView(false, result, FilteredPostOffices(result, "")) == Cards(offices)
  {
    FilterEmptyTermIsIdentity(offices);
  }

  /** A result without an office list (the service's answer for an unknown pincode) shows the empty-state message. */
  lemma ResultWithoutOfficesShowsNoNameFound(result: Option<LookupResult>, searchTerm: string)
    requires result.Some? && result.value.postOffices.None?
    ensures SelectView(false, result, FilteredPostOffices(result, searchTerm)) == NoNameFound
  {
  }

  class PincodeFetcher {
    var pincode: string
    var result: Option<LookupResult>
    var searchTerm: string
    var loading: bool
    var snackbar: Snackbar

    /** The initial state: empty inputs, no result, not loading, a closed success toast with no message. */
    constructor ()
      ensures pincode == "" && result == None && searchTerm == "" && !loading
      ensures snackbar == Snackbar(false, "", Success)
    {
      pincode := "";
      result := None;
      searchTerm := "";
      loading := false;
      snackbar := Snackbar(false, "", Success);
    }

    /** The office list derived from the current result and search term. */
    function Filtered(): (filtered: seq<PostOffice>)
      reads this
      ensures forall o :: o in filtered <==> OfficesOf(result).Some? && o in OfficesOf(result).value && Matches(o, searchTerm)
    {
      FilteredPostOffices(result, searchTerm)
    }

    /** What the right-hand pane currently shows. */
    function CurrentView(): (v: View)
      reads this
      ensures v.Spinner? <==> loading
      ensures v.Placeholder? <==> !loading && result.None?
      ensures v.Cards? <==> !loading && result.Some? && Filtered() != []
      ensures v.NoNameFound? <==> !loading && result.Some? && Filtered() == []
      ensures v.Cards? ==> v.offices == Filtered()
      ensures v.Cards? ==> OfficesOf(result).Some? && IsSubsequence(v.offices, OfficesOf(result).value)
      ensures v.Cards? ==> forall o :: o in v.offices <==> o in OfficesOf(result).value && Matches(o, searchTerm)
    {
      if OfficesOf(result).Some? then
        FilterIsSubsequence(OfficesOf(result).value, searchTerm);
        SelectView(loading, result, Filtered())
      else
        SelectView(loading, result, Filtered())
    }

    /** The pincode text field's change handler: only the pincode changes. */
    method SetPincode(value: string)
      modifies this`pincode
      ensures pincode == value
      ensures result == old(result) && searchTerm == old(searchTerm) && loading == old(loading) && snackbar == old(snackbar)
    {
      pincode := value;
    }

    /** The search field's change handler: only the search term changes. */
    method HandleSearchChange(value: string)
      modifies this`searchTerm
      ensures searchTerm == value
      ensures pincode == old(pincode) && result == old(result) && loading == old(loading) && snackbar == old(snackbar)
      ensures Filtered() == FilteredPostOffices(result, value)
    {
      searchTerm := value;
    }

    /** Opens the toast with the given message and severity, overwriting all three of its fields. */
    method ShowSnackbar(message: string, severity: Severity)
      modifies this`snackbar
      ensures snackbar == Snackbar(true, message, severity)
      ensures pincode == old(pincode) && result == old(result) && searchTerm == old(searchTerm) && loading == old(loading)
    {
      snackbar := Snackbar(true, message, severity);
    }

    /** Closes the toast (explicitly or after the auto-hide delay); its message and severity stay as they were. */
    method HandleCloseSnackbar()
      modifies this`snackbar
      ensures !snackbar.open
      ensures snackbar.message == old(snackbar.message) && snackbar.severity == old(snackbar.severity)
      ensures pincode == old(pincode) && result == old(result) && searchTerm == old(searchTerm) && loading == old(loading)
    {
      snackbar := snackbar.(open := false);
    }

    /**
     * The fetch button's handler, as one atomic step: it requests `url` and
     * receives `outcome`. On success the first element of the response (or
     * no result, for an empty array) replaces the result, the search term is
     * cleared and a success toast opens; on failure the result and search
     * term are kept and an error toast opens. Loading ends false either way.
     */
    method HandleFetch(outcome: FetchOutcome) returns (url: string)
      modifies this`loading, this`result, this`searchTerm, this`snackbar
      ensures url == LookupEndpoint + old(pincode)
      ensures pincode == old(pincode) && !loading
      ensures outcome.Fetched? ==> result == ElementAt(outcome.data, 0) && searchTerm == ""
      ensures outcome.Fetched? ==> snackbar == Snackbar(true, FetchedMessage, Success)
      ensures outcome.Fetched? ==> OfficesOf(result).Some? ==> Filtered() == OfficesOf(result).value
      ensures outcome.Failed? ==> result == old(result) && searchTerm == old(searchTerm)
      ensures outcome.Failed? ==> snackbar == Snackbar(true, FailedMessage, Error)
      ensures outcome.Failed? ==> Filtered() == old(Filtered())
    {
      loading := true;
      url := LookupEndpoint + pincode;
      match outcome {
        case Fetched(data) =>
          result := ElementAt(data, 0);
          searchTerm := "";
          ShowSnackbar(FetchedMessage, Success);
          if OfficesOf(result).Some? {
            FilterEmptyTermIsIdentity(OfficesOf(result).value);
          }
        case Failed =>
          ShowSnackbar(FailedMessage, Error);
      }
      loading := false;
    }
  }

  /**
   * A session with pincode 411001: one office is fetched and shown as a card;
   * the term "shiv" keeps it, the term "xyz" leads to the empty-state message,
   * and closing the toast keeps its message.
   */
  method ShivajinagarSession() returns (views: seq<View>)
    ensures views == [Cards([Shivajinagar()]), Cards([Shivajinagar()]), NoNameFound]
  {
    var c := new PincodeFetcher();
    c.SetPincode("411001");
    var response := LookupResult("Success", "Number of pincode(s) found:1", Some([Shivajinagar()]));
    var url := c.HandleFetch(Fetched([response]));
    assert url == LookupEndpoint + "411001";
    FreshResultShowsAllOffices(c.result, [Shivajinagar()]);
    var afterFetch := c.CurrentView();
    c.HandleSearchChange("shiv");
    ShivMatches();
    var afterShiv := c.CurrentView();
    c.HandleSearchChange("xyz");
    XyzMatchesNothing();
    var afterXyz := c.CurrentView();
    c.HandleCloseSnackbar();
    assert !c.snackbar.open && c.snackbar.message == FetchedMessage;
    views := [afterFetch, afterShiv, afterXyz];
  }

  function Shivajinagar(): PostOffice {
    PostOffice("Shivajinagar", "Pune", "Maharashtra", "India", "411001")
  }

  lemma ShivMatches()
    ensures FilterOffices([Shivajinagar()], "shiv") == [Shivajinagar()]
  {
    ToLowerKeepsPrefix("Shiv", "Shivajinagar");
    FilterIsCaseInsensitive([Shivajinagar()], "shiv", "Shiv");
  }

  lemma XyzMatchesNothing()
    ensures FilterOffices([Shivajinagar()], "xyz") == []
  {
    var o := Shivajinagar();
    FirstLetterMismatch(o.name, "xyz");
    FirstLetterMismatch(o.district, "xyz");
    FirstLetterMismatch(o.state, "xyz");
    FirstLetterMismatch(o.country, "xyz");
  }
}
