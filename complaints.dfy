/**
 * The complaint desk (components/CivicComplaints.tsx): the filtered list, filing a
 * complaint from the form, and filling the location from a maps lookup.
 */
module Complaints {
  import opened Wrappers
  import opened Records
  import opened Lists
  import opened Ai
  import GeminiService

  const Categories: seq<string> := [
    "Roads", "Electricity", "Water", "Sanitation", "Safety", "Public Transport", "Health",
    "Waste Management", "Street Lighting", "Noise Pollution", "Traffic & Parking",
    "Illegal Encroachment", "Animal Welfare", "Parks & Playgrounds"]

  /** The category filter: 'All Categories' is `Any`; likewise 'All Status' for the status filter. */
  predicate ComplaintShown(c: CivicComplaint, category: Choice<string>, status: Choice<ComplaintStatus>) {
    category.Admits(c.category) && status.Admits(c.status)
  }

  function FilteredComplaints(complaints: seq<CivicComplaint>, category: Choice<string>, status: Choice<ComplaintStatus>)
    : seq<CivicComplaint>
  {
    Filter(complaints, c => ComplaintShown(c, category, status))
  }

  /**
   * A complaint is listed exactly when both filters admit it, the list keeps the
   * stored order, and with both wildcards everything is listed.
   */
  lemma {:induction false} FilteredComplaintsExactly(complaints: seq<CivicComplaint>, category: Choice<string>,
                                                     status: Choice<ComplaintStatus>)
    ensures forall c :: c in FilteredComplaints(complaints, category, status) <==>
      (c in complaints && (category.Any? || c.category == category.value) && (status.Any? || c.status == status.value))
    ensures IsSubsequence(FilteredComplaints(complaints, category, status), complaints)
    ensures category.Any? && status.Any? ==> FilteredComplaints(complaints, category, status) == complaints
  {
    var r := FilteredComplaints(complaints, category, status);
    forall c | c in r ensures c in complaints && ComplaintShown(c, category, status) {
      var i :| 0 <= i < |r| && r[i] == c;
    }
    forall c | c in complaints && ComplaintShown(c, category, status) ensures c in r {
      var i :| 0 <= i < |complaints| && complaints[i] == c;
    }
    FilterIsSubsequence(complaints, c => ComplaintShown(c, category, status));
    if category.Any? && status.Any? {
      FilterAll(complaints, c => ComplaintShown(c, category, status));
    }
  }

  /** The report form; every field is always present, possibly empty. */
  datatype ComplaintForm = ComplaintForm(
    title: string,
    category: string,
    description: string,
    location: string,
    constituency: string,
    state: string,
    priority: PriorityLevel,
    photo: string,
    googleMapsLink: string)

  const InitialForm := ComplaintForm("", Categories[0], "", "", "", "", Medium, "", "")

  /** The form can be filed: both the title and the description are non-empty. */
  predicate Fileable(form: ComplaintForm) {
    form.title != "" && form.description != ""
  }

  /**
   * The complaint filed from a form: status 'Active', the given id and date, an
   * empty category replaced by the first category, other text as typed, and the
   * photo and maps link carried over as they are.
   */
  function Filed(form: ComplaintForm, id: string, date: string): (c: CivicComplaint)
    ensures c.status == Active && c.id == id && c.date == date
    ensures c.title == form.title && c.description == form.description && c.location == form.location
    ensures c.constituency == form.constituency && c.state == form.state && c.priority == form.priority
    ensures c.category == (if form.category == "" then "Roads" else form.category)
    ensures c.photo == Some(form.photo) && c.googleMapsLink == Some(form.googleMapsLink)
  {
    CivicComplaint(id, form.title, if form.category == "" then Categories[0] else form.category,
                   form.description, form.location, form.constituency, form.state, form.priority,
                   date, Active, Some(form.photo), Some(form.googleMapsLink))
  }

  /**
   * The form after a maps lookup for the current position: with a link, the first
   * link's title (the coordinates when it is empty) and its uri; without one, only
   * the location changes, to the coordinates.
   */
  function Located(form: ComplaintForm, coordinates: string, answer: GeminiService.PlaceAnswer): (f: ComplaintForm)
    ensures f.(location := form.location, googleMapsLink := form.googleMapsLink) == form
    ensures answer.mapsLinks == [] ==> f == form.(location := coordinates)
    ensures answer.mapsLinks != [] ==>
      f.googleMapsLink == answer.mapsLinks[0].uri
      && f.location == (if answer.mapsLinks[0].title != "" then answer.mapsLinks[0].title else coordinates)
  {
    if |answer.mapsLinks| > 0 then
      var top := answer.mapsLinks[0];
      form.(location := if top.title != "" then top.title else coordinates, googleMapsLink := top.uri)
    else form.(location := coordinates)
  }

  /** The desk's state. The coordinate text `toFixed(6)` produces is passed in. */
  class ComplaintDesk {
    var complaints: seq<CivicComplaint>
    var form: ComplaintForm
    var isAutoDetecting: bool
    var categoryFilter: Choice<string>
    var statusFilter: Choice<ComplaintStatus>

    constructor(saved: seq<CivicComplaint>)
      ensures complaints == saved && form == InitialForm && !isAutoDetecting
      ensures categoryFilter == Any && statusFilter == Any
    {
      complaints := saved;
      form := InitialForm;
      isAutoDetecting := false;
      categoryFilter := Any;
      statusFilter := Any;
    }

    function Shown(): seq<CivicComplaint>
      reads this
    {
      FilteredComplaints(complaints, categoryFilter, statusFilter)
    }

    /**
     * `handleSubmit`: nothing without a title and a description; otherwise the filed
     * complaint goes in front of the unchanged list and the form is reset.
     */
    method Submit(id: string, date: string)
      modifies this
      ensures !Fileable(old(form)) ==> complaints == old(complaints) && form == old(form)
      ensures Fileable(old(form)) ==>
        complaints == [Filed(old(form), id, date)] + old(complaints) && form == InitialForm
      ensures isAutoDetecting == old(isAutoDetecting)
      ensures categoryFilter == old(categoryFilter) && statusFilter == old(statusFilter)
    {
      if form.title == "" || form.description == "" {
        return;
      }
      var filed := Filed(form, id, date);
      complaints := [filed] + complaints;
      form := InitialForm;
    }

    /** The position is known: the answer of the maps lookup fills the location. */
    method PositionLocated(coordinates: string, answer: GeminiService.PlaceAnswer)
      modifies this
      ensures form == Located(old(form), coordinates, answer) && !isAutoDetecting
      ensures complaints == old(complaints)
      ensures categoryFilter == old(categoryFilter) && statusFilter == old(statusFilter)
    {
      isAutoDetecting := true;
      form := Located(form, coordinates, answer);
      isAutoDetecting := false;
    }

    /** The position could not be read: only the busy flag drops. */
    method PositionUnavailable()
      modifies this`isAutoDetecting
      ensures !isAutoDetecting
    {
      isAutoDetecting := false;
    }
  }

  /** A filed complaint always opens as 'Active' and is listed under the 'Active' status filter. */
  lemma {:induction false} FiledIsListedAsActive(form: ComplaintForm, id: string, date: string,
                                                 complaints: seq<CivicComplaint>)
    ensures var c := Filed(form, id, date);
      FilteredComplaints([c] + complaints, Exactly(c.category), Exactly(Active))
      == [c] + FilteredComplaints(complaints, Exactly(c.category), Exactly(Active))
  {
    var c := Filed(form, id, date);
    assert ([c] + complaints)[1..] == complaints;
  }
}
