/**
 * The appointment store of src/main.js: the module-level `appointments`
 * array, its mirror in localStorage and the list elements on the page, with
 * the operations that change them. This build trims the form, escapes what
 * it renders and catches storage errors.
 */
module MainBuild {
  import opened Wrappers
  import opened Appointments
  import opened Forms
  import opened Rendering

  class MainPage {
    /** The module-level `appointments` array. */
    var appointments: seq<Appointment>
    /** localStorage, key by key. */
    var storage: map<string, Stored>
    /** The list elements; None until the first render. */
    var view: Option<View>
    /** The browser's text serialiser behind escapeHtml. */
    const serialise: string -> string

    /** Storage and page both show the in-memory list. */
    ghost predicate Mirrored()
      reads this
    {
      && StorageKey in storage && storage[StorageKey] == Saved(appointments)
      && view == Some(RenderEscaped(appointments, serialise))
    }

    /** Page load, before loadAppointments: an empty list, storage as the browser kept it. */
    constructor (kept: map<string, Stored>, serialise: string -> string)
      ensures appointments == [] && storage == kept && view == None
      ensures this.serialise == serialise
    {
      appointments := [];
      storage := kept;
      view := None;
      this.serialise := serialise;
    }

    /**
     * saveAppointments: overwrites the key with the whole list; a failed
     * write (`writeOk` false, e.g. quota exceeded) is caught, changes
     * nothing and raises the alert, reported as `warned`.
     */
    method SaveAppointments(writeOk: bool) returns (warned: bool)
      modifies this`storage
      ensures storage == if writeOk then old(storage)[StorageKey := Saved(appointments)] else old(storage)
      ensures warned == !writeOk
    {
      if writeOk {
        storage := storage[StorageKey := Saved(appointments)];
      }
      warned := !writeOk;
    }

    /** renderAppointments: the page shows the escaped projection of the list. */
    method RenderAppointments()
      modifies this`view
      ensures view == Some(RenderEscaped(appointments, serialise))
    {
      view := Some(RenderEscaped(appointments, serialise));
    }

    /**
     * addAppointment: appends at the end, saves, renders. The earlier
     * entries keep their order; a failed write leaves the entry in memory.
     */
    method AddAppointment(a: Appointment, writeOk: bool) returns (warned: bool)
      modifies this
      ensures appointments == old(appointments) + [a]
      ensures |appointments| == |old(appointments)| + 1
      ensures storage == if writeOk then old(storage)[StorageKey := Saved(appointments)] else old(storage)
      ensures view == Some(RenderEscaped(appointments, serialise))
      ensures warned == !writeOk
      ensures writeOk ==> Mirrored()
    {
      appointments := appointments + [a];
      warned := SaveAppointments(writeOk);
      RenderAppointments();
    }

    /**
     * window.deleteAppointment: when the dialog is confirmed, keeps the
     * entries whose id differs from `id`, saves and renders; when it is
     * cancelled, nothing changes.
     */
    method DeleteAppointment(id: Id, confirmed: bool, writeOk: bool) returns (warned: bool)
      modifies this
      ensures !confirmed ==> unchanged(this) && !warned
      ensures confirmed ==> appointments == Without(old(appointments), id)
      ensures confirmed ==> storage == if writeOk then old(storage)[StorageKey := Saved(appointments)] else old(storage)
      ensures confirmed ==> view == Some(RenderEscaped(appointments, serialise)) && warned == !writeOk
      ensures confirmed && writeOk ==> Mirrored()
    {
      warned := false;
      if confirmed {
        appointments := Without(appointments, id);
        warned := SaveAppointments(writeOk);
        RenderAppointments();
      }
    }

    /**
     * loadAppointments: a saved list replaces the in-memory one and is
     * rendered; an absent or empty value changes nothing; text that fails
     * to parse, or a read that throws (`readOk` false, storage blocked), is
     * caught and resets the list to empty without a render. Storage is
     * only read.
     */
    method LoadAppointments(readOk: bool)
      modifies this`appointments, this`view
      ensures storage == old(storage)
      ensures !readOk ==> appointments == [] && view == old(view)
      ensures readOk && (StorageKey !in storage || storage[StorageKey] == Unreadable("")) ==>
        appointments == old(appointments) && view == old(view)
      ensures readOk && StorageKey in storage && storage[StorageKey].Saved? ==>
        appointments == storage[StorageKey].list && Mirrored()
      ensures readOk && StorageKey in storage && storage[StorageKey].Unreadable? && storage[StorageKey].text != "" ==>
        appointments == [] && view == old(view)
    {
      if !readOk {
        appointments := [];
      } else if StorageKey in storage {
        match storage[StorageKey]
        case Saved(xs) =>
          appointments := xs;
          RenderAppointments();
        case Unreadable(text) =>
          if text != "" {
            appointments := [];
          }
      }
    }

    /**
     * handleFormSubmit, from reading the form to the end of the request.
     * The fields are trimmed (all but the service); a missing required
     * value shows the validation error and sends nothing. Otherwise the
     * POST summarising the form is sent; a rejected request shows the error
     * banner and changes nothing; an accepted one adds the new record,
     * resets the form and shows the success banner, even when the storage
     * write failed (that failure raises the alert, `warned`).
     */
    method HandleFormSubmit(raw: FormFields, outcome: PostOutcome, now: int, fecha: string, writeOk: bool)
      returns (report: SubmitReport, warned: bool)
      modifies this
      ensures var f := TrimmedForm(raw);
        !RequiredPresent(f) ==> report == SubmitReport(None, MissingFieldsStatus, false) && !warned && unchanged(this)
      ensures var f := TrimmedForm(raw);
        RequiredPresent(f) && outcome.Rejected? ==>
          report == SubmitReport(Some(RequestFor(f)), SubmitFailedStatus, false) && !warned && unchanged(this)
      ensures var f := TrimmedForm(raw);
        RequiredPresent(f) && outcome.Accepted? ==>
          && report == SubmitReport(Some(RequestFor(f)), BookedStatus, true)
          && appointments == old(appointments) + [NewAppointment(f, outcome.responseId, now, fecha)]
          && storage == (if writeOk then old(storage)[StorageKey := Saved(appointments)] else old(storage))
          && view == Some(RenderEscaped(appointments, serialise))
          && warned == !writeOk
    {
      var f := TrimmedForm(raw);
      warned := false;
      if !RequiredPresent(f) {
        report := SubmitReport(None, MissingFieldsStatus, false);
        return;
      }
      var request := RequestFor(f);
      match outcome
      case Rejected =>
        report := SubmitReport(Some(request), SubmitFailedStatus, false);
      case Accepted(responseId) =>
        var a := NewAppointment(f, responseId, now, fecha);
        warned := AddAppointment(a, writeOk);
        report := SubmitReport(Some(request), BookedStatus, true);
    }
  }

  /**
   * A list saved by one page load is the list the next load starts with:
   * after an add that was written, reopening the page on the same storage
   * restores it entry for entry (id, every field and the date string).
   */
  method ReloadAfterAdd(kept: map<string, Stored>, a: Appointment, serialise: string -> string)
    returns (before: seq<Appointment>, after: seq<Appointment>)
    ensures after == before
    ensures |before| > 0 && before[|before| - 1] == a
  {
    var page := new MainPage(kept, serialise);
    page.LoadAppointments(true);
    var _ := page.AddAppointment(a, true);
    before := page.appointments;
    var reopened := new MainPage(page.storage, serialise);
    reopened.LoadAppointments(true);
    after := reopened.appointments;
  }

  /**
   * A confirmed delete of an id present once in a saved list: the list,
   * the stored copy and the page each lose exactly that one entry, and no
   * card for it remains.
   */
  method DeleteOneScenario(xs: seq<Appointment>, k: Id, serialise: string -> string)
    returns (stored: seq<Appointment>, cards: seq<Card>)
    requires UniqueIds(xs) && HasId(xs, k)
    ensures |stored| == |xs| - 1
    ensures stored == Without(xs, k)
    ensures |cards| == |stored| && forall c :: c in cards ==> c.deleteId != k
  {
    var page := new MainPage(map[StorageKey := Saved(xs)], serialise);
    page.LoadAppointments(true);
    var _ := page.DeleteAppointment(k, true, true);
    stored := page.storage[StorageKey].list;
    cards := page.view.value.cards;
    DeletePresentShrinksByOne(xs, k);
  }
}
