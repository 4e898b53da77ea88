/**
 * renderAppointments as a projection: the list becomes either the empty
 * placeholder or one card per appointment, in list order. A card is the
 * record of what its HTML template interpolates, not the HTML text.
 */
module Rendering {
  import opened Wrappers
  import opened Appointments
  import opened Lookups

  /**
   * What one appointment card shows: owner name, date, the id passed to the
   * delete button, pet, service label, phone, email, and the message block
   * (absent when there is no message).
   */
  datatype Card = Card(
    title: string,
    date: string,
    deleteId: Id,
    pet: string,
    service: string,
    phone: string,
    email: string,
    message: Option<string>)

  /**
   * The state of the two list elements after a render: whether the
   * "no appointments" placeholder and the list container carry the
   * `hidden` class, and the cards inside the list container.
   */
  datatype View = View(placeholderHidden: bool, listHidden: bool, cards: seq<Card>)

  /**
   * escapeHtml: a falsy text gives the empty string; any other text goes
   * through the browser's `textContent`/`innerHTML` serialiser, which the
   * model receives as the parameter `serialise`.
   */
  function EscapeHtml(serialise: string -> string, text: string): (r: string)
    ensures text == "" ==> r == ""
    ensures text != "" ==> r == serialise(text)
  {
    if text == "" then "" else serialise(text)
  }

  /** The card template applied to one appointment, each field passed through `esc`. */
  function CardOf(a: Appointment, esc: string -> string): (c: Card)
    ensures c.title == esc(a.nombre) && c.date == esc(a.fecha) && c.deleteId == a.id
    ensures c.pet == esc(a.mascota) && c.phone == esc(a.telefono) && c.email == esc(a.email)
    ensures c.service == esc(ServiceName(a.servicio))
    ensures c.message.Some? <==> a.mensaje != ""
    ensures c.message.Some? ==> c.message.value == esc(a.mensaje)
  {
    Card(esc(a.nombre), esc(a.fecha), a.id, esc(a.mascota), esc(ServiceName(a.servicio)),
         esc(a.telefono), esc(a.email), if a.mensaje != "" then Some(esc(a.mensaje)) else None)
  }

  /** `xs.map(template)`: one card per appointment, position by position. */
  function Cards(xs: seq<Appointment>, esc: string -> string): (cs: seq<Card>)
    ensures |cs| == |xs|
    ensures forall i :: 0 <= i < |xs| ==> cs[i] == CardOf(xs[i], esc)
  {
    if xs == [] then [] else [CardOf(xs[0], esc)] + Cards(xs[1..], esc)
  }

  /**
   * The whole render: an empty list shows the placeholder and hides and
   * clears the list container; otherwise the placeholder is hidden and the
   * container shows one card per appointment, in order, each with the
   * appointment's id on its delete button, its service label, and a message
   * block exactly when the message is non-empty.
   */
  function Render(xs: seq<Appointment>, esc: string -> string): (v: View)
    ensures v.placeholderHidden <==> xs != []
    ensures v.listHidden <==> xs == []
    ensures |v.cards| == |xs|
    ensures forall i :: 0 <= i < |xs| ==>
      && v.cards[i].deleteId == xs[i].id
      && v.cards[i].service == esc(ServiceName(xs[i].servicio))
      && (v.cards[i].message.Some? <==> xs[i].mensaje != "")
  {
    if xs == [] then View(false, true, []) else View(true, false, Cards(xs, esc))
  }

  /** The src/main.js render: every interpolated text goes through escapeHtml. */
  function RenderEscaped(xs: seq<Appointment>, serialise: string -> string): (v: View)
    ensures |v.cards| == |xs|
    ensures forall i :: 0 <= i < |xs| ==>
      && v.cards[i].title == EscapeHtml(serialise, xs[i].nombre)
      && v.cards[i].date == EscapeHtml(serialise, xs[i].fecha)
      && v.cards[i].pet == EscapeHtml(serialise, xs[i].mascota)
      && v.cards[i].service == EscapeHtml(serialise, ServiceName(xs[i].servicio))
      && v.cards[i].phone == EscapeHtml(serialise, xs[i].telefono)
      && v.cards[i].email == EscapeHtml(serialise, xs[i].email)
      && v.cards[i].message == (if xs[i].mensaje == "" then None else Some(serialise(xs[i].mensaje)))
  {
    Render(xs, t => EscapeHtml(serialise, t))
  }

  /** The script.js render: the stored values are interpolated as they are. */
  function RenderRaw(xs: seq<Appointment>): (v: View)
    ensures |v.cards| == |xs|
    ensures forall i :: 0 <= i < |xs| ==>
      v.cards[i] == Card(xs[i].nombre, xs[i].fecha, xs[i].id, xs[i].mascota, ServiceName(xs[i].servicio),
                         xs[i].telefono, xs[i].email, if xs[i].mensaje == "" then None else Some(xs[i].mensaje))
  {
    Render(xs, t => t)
  }

  /** Cards that do not belong to appointment `k`, in order. */
  function CardsWithout(cs: seq<Card>, k: Id): seq<Card>
  {
    if cs == [] then [] else (if cs[0].deleteId != k then [cs[0]] else []) + CardsWithout(cs[1..], k)
  }

  /**
   * Rendering after a delete is the earlier rendering with that
   * appointment's cards taken out, the rest unchanged and in order.
   */
  lemma {:induction false} CardsAfterDelete(xs: seq<Appointment>, k: Id, esc: string -> string)
    ensures Cards(Without(xs, k), esc) == CardsWithout(Cards(xs, esc), k)
  {
    if xs != [] {
      CardsAfterDelete(xs[1..], k, esc);
      var cs := Cards(xs, esc);
      assert cs[1..] == Cards(xs[1..], esc);
      if xs[0].id != k {
        assert Without(xs, k) == [xs[0]] + Without(xs[1..], k);
        assert Cards([xs[0]] + Without(xs[1..], k), esc)
            == [CardOf(xs[0], esc)] + Cards(Without(xs[1..], k), esc);
      }
    }
  }

  /** After a delete of `k`, no card's delete button names `k`. */
  lemma DeletedCardGone(xs: seq<Appointment>, k: Id, esc: string -> string)
    ensures forall c :: c in Render(Without(xs, k), esc).cards ==> c.deleteId != k
  {
  }
}
