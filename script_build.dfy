/**
 * The appointment store of script.js, the older build: the same list,
 * storage key and card template, but the form is not trimmed, nothing is
 * escaped, and storage errors are not caught: they propagate out of the
 * operation that hit them, reported here as `threw`.
 */
module ScriptBuild {
  import opened Wrappers
  import opened Appointments
  import opened Forms
  import opened Rendering

  class ScriptPage {
    /** The global `appointments` array. */
    var appointments: seq<Appointment>
    /** localStorage, key by key. */
    var storage: map<string, Stored>
    /** The list elements; None until the first render. */
    var view: Option<View>

    /** Storage and page both show the in-memory list. */
    ghost predicate Mirrored()
      reads this
    {
      && StorageKey in storage && storage[StorageKey] == Saved(appointments)
      && view == Some(RenderRaw(appointments))
    }

    constructor (kept: map<string, Stored>)
      ensures appointments == [] && storage == kept && view == None
    {
      appointments := [];
      storage := kept;
      view := None;
    }

    /** saveAppointments: overwrites the key; a failed write throws and changes nothing. */
    method SaveAppointments(writeOk: bool) returns (threw: bool)
      modifies this`storage
      ensures storage == if writeOk then old(storage)[StorageKey := Saved(appointments)] else old(storage)
      ensures threw == !writeOk
    {
      if writeOk {
        storage := storage[StorageKey := Saved(appointments)];
      }
      threw := !writeOk;
    }

    /** renderAppointments: the page shows the unescaped projection of the list. */
    method RenderAppointments()
      modifies this`view
      ensures view == Some(RenderRaw(appointments))
    {
      view := Some(RenderRaw(appointments));
    }

    /**
     * addAppointment: appends at the end, saves, renders. When the write
     * throws, the entry stays in memory but the render is skipped.
     */
    method AddAppointment(a: Appointment, writeOk: bool) returns (threw: bool)
      modifies this
      ensures appointments == old(appointments) + [a]
      ensures storage == if writeOk then old(storage)[StorageKey := Saved(appointments)] else old(storage)
      ensures view == if writeOk then Some(RenderRaw(appointments)) else old(view)
      ensures threw == !writeOk
      ensures writeOk ==> Mirrored()
    {
      appointments := appointments + [a];
      threw := SaveAppointments(writeOk);
      if !threw {
        RenderAppointments();
      }
    }

    /**
     * deleteAppointment: when confirmed, keeps the entries whose id differs
     * from `id`, saves and (unless the write threw) renders; when
     * cancelled, nothing changes.
     */
    method DeleteAppointment(id: Id, confirmed: bool, writeOk: bool) returns (threw: bool)
      modifies this
      ensures !confirmed ==> unchanged(this) && !threw
      ensures confirmed ==> appointments == Without(old(appointments), id) && threw == !writeOk
      ensures confirmed ==> storage == if writeOk then old(storage)[StorageKey := Saved(appointments)] else old(storage)
      ensures confirmed ==> view == if writeOk then Some(RenderRaw(appointments)) else old(view)
      ensures confirmed && writeOk ==> Mirrored()
    {
      threw := false;
      if confirmed {
        appointments := Without(appointments, id);
        threw := SaveAppointments(writeOk);
        if !threw {
          RenderAppointments();
        }
      }
    }

    /**
     * loadAppointments: a saved list replaces the in-memory one and is
     * rendered; an absent or empty value changes nothing; a read that
     * throws (`readOk` false, storage blocked) or text that fails to parse
     * throws before anything is assigned.
     */
    method LoadAppointments(readOk: bool) returns (threw: bool)
      modifies this`appointments, this`view
      ensures storage == old(storage)
      ensures threw <==> (!readOk ||
        (StorageKey in storage && storage[StorageKey].Unreadable? && storage[StorageKey].text != ""))
      ensures readOk && StorageKey in storage && storage[StorageKey].Saved? ==>
        appointments == storage[StorageKey].list && Mirrored()
      ensures !(readOk && StorageKey in storage && storage[StorageKey].Saved?) ==>
        appointments == old(appointments) && view == old(view)
    {
      threw := !readOk;
      if readOk && StorageKey in storage {
        match storage[StorageKey]
        case Saved(xs) =>
          appointments := xs;
          RenderAppointments();
        case Unreadable(text) =>
          threw := text != "";
      }
    }

    /**
     * handleFormSubmit: the raw values are checked and sent. A rejected
     * request shows the error banner. An accepted one adds the record; if
     * the storage write then throws, the exception lands in the same
     * `catch`: the entry stays in memory, the form is not reset, and the
     * error banner is shown instead of the success one.
     */
    method HandleFormSubmit(raw: FormFields, outcome: PostOutcome, now: int, fecha: string, writeOk: bool)
      returns (report: SubmitReport)
      modifies this
      ensures !RequiredPresent(raw) ==> report == SubmitReport(None, MissingFieldsStatus, false) && unchanged(this)
      ensures RequiredPresent(raw) && outcome.Rejected? ==>
        report == SubmitReport(Some(RequestFor(raw)), SubmitFailedStatus, false) && unchanged(this)
      ensures RequiredPresent(raw) && outcome.Accepted? ==>
        && appointments == old(appointments) + [NewAppointment(raw, outcome.responseId, now, fecha)]
        && storage == (if writeOk then old(storage)[StorageKey := Saved(appointments)] else old(storage))
        && view == (if writeOk then Some(RenderRaw(appointments)) else old(view))
        && report == SubmitReport(Some(RequestFor(raw)), if writeOk then BookedStatus else SubmitFailedStatus, writeOk)
    {
      if !RequiredPresent(raw) {
        report := SubmitReport(None, MissingFieldsStatus, false);
        return;
      }
      var request := RequestFor(raw);
      match outcome
      case Rejected =>
        report := SubmitReport(Some(request), SubmitFailedStatus, false);
      case Accepted(responseId) =>
        var a := NewAppointment(raw, responseId, now, fecha);
        var threw := AddAppointment(a, writeOk);
        if threw {
          report := SubmitReport(Some(request), SubmitFailedStatus, false);
        } else {
          report := SubmitReport(Some(request), BookedStatus, true);
        }
    }
  }

  /**
   * Starting from no saved data, one accepted booking for Ana's dog Rex
   * shows a single card labelled "Vacunación", hides the placeholder and
   * shows the list.
   */
  method FirstBookingScenario(now: int, fecha: string) returns (v: View)
    ensures !v.listHidden && v.placeholderHidden
    ensures |v.cards| == 1
    ensures v.cards[0].title == "Ana" && v.cards[0].pet == "Rex" && v.cards[0].service == "Vacunación"
    ensures v.cards[0].message == None
  {
    var page := new ScriptPage(map[]);
    var _ := page.LoadAppointments(true);
    var form := FormFields("Ana", "a@x.com", "0999", "Rex", "vacunacion", "");
    var _ := page.HandleFormSubmit(form, Accepted(Some(Num(101))), now, fecha, true);
    v := page.view.value;
  }

  /**
   * Markup typed into the message reaches the script.js card unchanged:
   * this build inserts it into the page as live HTML.
   */
  method UnescapedMessageScenario(markup: string) returns (v: View)
    requires markup != ""
    ensures |v.cards| == 1 && v.cards[0].message == Some(markup)
  {
    var page := new ScriptPage(map[]);
    var a := Appointment(Num(1), "Ana", "a@x.com", "0999", "Rex", "consulta", markup, "1 de enero de 2025");
    var _ := page.AddAppointment(a, true);
    v := page.view.value;
  }
}
