/**
 * The appointment form: JavaScript's String.prototype.trim, the
 * required-field check, the POST payload and the record built from a
 * successful response.
 */
module Forms {
  import opened Wrappers
  import opened Appointments

  /**
   * The characters String.prototype.trim strips: WhiteSpace and
   * LineTerminator of ECMAScript, sections 12.2 and 12.3 (tab, vertical
   * tab, form feed, zero-width no-break space, the space separators of
   * Unicode category Zs, line feed, carriage return, line and paragraph
   * separators).
   */
  predicate IsJsWhitespace(c: char)
  {
    c == '\t' || c == '\n' || c == '\U{000B}' || c == '\U{000C}' || c == '\r' || c == ' '
    || c == '\U{00A0}' || c == '\U{1680}' || ('\U{2000}' <= c <= '\U{200A}')
    || c == '\U{2028}' || c == '\U{2029}' || c == '\U{202F}' || c == '\U{205F}'
    || c == '\U{3000}' || c == '\U{FEFF}'
  }

  /** A string made of whitespace only (the empty string included). */
  predicate Blank(s: string)
  {
    forall i :: 0 <= i < |s| ==> IsJsWhitespace(s[i])
  }

  /** `s` with its leading whitespace removed: a suffix of `s`, and all that was cut is whitespace. */
  function TrimStart(s: string): (r: string)
    ensures |r| <= |s| && r == s[|s| - |r|..]
    ensures forall k :: 0 <= k < |s| - |r| ==> IsJsWhitespace(s[k])
    ensures r == [] || !IsJsWhitespace(r[0])
  {
    if s != [] && IsJsWhitespace(s[0]) then TrimStart(s[1..]) else s
  }

  /** `s` with its trailing whitespace removed: a prefix of `s`, and all that was cut is whitespace. */
  function TrimEnd(s: string): (r: string)
    ensures |r| <= |s| && r == s[..|r|]
    ensures forall k :: |r| <= k < |s| ==> IsJsWhitespace(s[k])
    ensures r == [] || !IsJsWhitespace(r[|r| - 1])
  {
    if s != [] && IsJsWhitespace(s[|s| - 1]) then TrimEnd(s[..|s| - 1]) else s
  }

  /** `s.trim()`. */
  function Trim(s: string): (r: string)
    ensures r == [] || (!IsJsWhitespace(r[0]) && !IsJsWhitespace(r[|r| - 1]))
  {
    TrimEnd(TrimStart(s))
  }

  /**
   * Trimming splits the input into a whitespace head, the result, and a
   * whitespace tail.
   */
  lemma TrimDecomposes(s: string) returns (i: nat, j: nat)
    ensures i <= j <= |s| && Trim(s) == s[i..j]
    ensures forall k :: 0 <= k < i ==> IsJsWhitespace(s[k])
    ensures forall k :: j <= k < |s| ==> IsJsWhitespace(s[k])
  {
    var t := TrimStart(s);
    var r := TrimEnd(t);
    i := |s| - |t|;
    j := i + |r|;
    forall k | j <= k < |s| ensures IsJsWhitespace(s[k]) {
      assert s[k] == t[k - i];
    }
  }

  /** A trimmed string is empty exactly when the input was whitespace only. */
  lemma TrimEmptyIffBlank(s: string)
    ensures Trim(s) == "" <==> Blank(s)
  {
  }

  /** Trimming twice is trimming once. */
  lemma TrimIdempotent(s: string)
    ensures Trim(Trim(s)) == Trim(s)
  {
  }

  /** The six form controls, read as strings. */
  datatype FormFields = FormFields(
    nombre: string,
    email: string,
    telefono: string,
    mascota: string,
    servicio: string,
    mensaje: string)

  /**
   * The `formData` object of src/main.js: every free-text field trimmed,
   * the service selector taken as it is.
   */
  function TrimmedForm(raw: FormFields): (f: FormFields)
    ensures f.servicio == raw.servicio
    ensures Blank(raw.nombre) <==> f.nombre == ""
    ensures Blank(raw.email) <==> f.email == ""
    ensures Blank(raw.telefono) <==> f.telefono == ""
    ensures Blank(raw.mascota) <==> f.mascota == ""
    ensures Blank(raw.mensaje) <==> f.mensaje == ""
  {
    TrimEmptyIffBlank(raw.nombre);
    TrimEmptyIffBlank(raw.email);
    TrimEmptyIffBlank(raw.telefono);
    TrimEmptyIffBlank(raw.mascota);
    TrimEmptyIffBlank(raw.mensaje);
    FormFields(Trim(raw.nombre), Trim(raw.email), Trim(raw.telefono),
               Trim(raw.mascota), raw.servicio, Trim(raw.mensaje))
  }

  /** The guard of handleFormSubmit: the five required values are all truthy (non-empty). */
  predicate RequiredPresent(f: FormFields): (ok: bool)
    ensures ok <==> "" !in [f.nombre, f.email, f.telefono, f.mascota, f.servicio]
  {
    f.nombre != "" && f.email != "" && f.telefono != "" && f.mascota != "" && f.servicio != ""
  }

  /**
   * src/main.js rejects a submission exactly when one of the four free-text
   * required fields is whitespace only, or no service is selected; the
   * message never matters.
   */
  lemma MainValidationExact(raw: FormFields)
    ensures !RequiredPresent(TrimmedForm(raw)) <==>
      Blank(raw.nombre) || Blank(raw.email) || Blank(raw.telefono) || Blank(raw.mascota) || raw.servicio == ""
  {
  }

  /** The trimmed check of src/main.js is at least as strict as the raw check of script.js. */
  lemma MainStricter(raw: FormFields)
    ensures RequiredPresent(TrimmedForm(raw)) ==> RequiredPresent(raw)
  {
  }

  /**
   * script.js checks the raw values, so a whitespace-only owner name passes
   * there and is rejected by src/main.js.
   */
  lemma WhitespaceOnlyPassesScriptOnly()
    ensures var raw := FormFields(" ", "a@x.com", "0999", "Rex", "vacunacion", "");
      RequiredPresent(raw) && !RequiredPresent(TrimmedForm(raw))
  {
  }

  /** The JSON body of the POST: a title naming the owner, a body naming service and pet. */
  datatype PostRequest = PostRequest(title: string, body: string, userId: int)

  function RequestFor(f: FormFields): (req: PostRequest)
    ensures req.userId == 1
    ensures req.title == "Cita para " + f.nombre
    ensures req.body == "Servicio: " + f.servicio + ", Mascota: " + f.mascota
  {
    PostRequest("Cita para " + f.nombre, "Servicio: " + f.servicio + ", Mascota: " + f.mascota, 1)
  }

  /**
   * What the POST produced: `Rejected` for a network error, a non-success
   * status or a body that is not JSON (all end in the `catch`); `Accepted`
   * with the response's `id` property, when it has one.
   */
  datatype PostOutcome = Rejected | Accepted(responseId: Option<Id>)

  /**
   * The record added after a successful POST: the response id when it is
   * truthy, otherwise the clock reading `now`; the six form values
   * unchanged; and the creation date string `fecha`.
   */
  function NewAppointment(f: FormFields, responseId: Option<Id>, now: int, fecha: string): (a: Appointment)
    ensures responseId.Some? && Truthy(responseId.value) ==> a.id == responseId.value
    ensures responseId.None? || !Truthy(responseId.value) ==> a.id == Num(now)
    ensures a.nombre == f.nombre && a.email == f.email && a.telefono == f.telefono
    ensures a.mascota == f.mascota && a.servicio == f.servicio && a.mensaje == f.mensaje
    ensures a.fecha == fecha
  {
    var id := if responseId.Some? && Truthy(responseId.value) then responseId.value else Num(now);
    Appointment(id, f.nombre, f.email, f.telefono, f.mascota, f.servicio, f.mensaje, fecha)
  }

  /** Outcome banner of the form. */
  datatype StatusKind = Success | Error
  datatype FormStatus = FormStatus(kind: StatusKind, message: string)

  const MissingFieldsStatus := FormStatus(Error, "Por favor completa todos los campos requeridos.")
  const SubmitFailedStatus := FormStatus(Error, "Hubo un error al agendar tu cita. Por favor intenta nuevamente.")
  const BookedStatus := FormStatus(Success, "¡Cita agendada exitosamente! Nos pondremos en contacto contigo pronto.")

  /**
   * What one submission reports: the request sent (none when validation
   * failed), the status banner shown, and whether the form was reset.
   */
  datatype SubmitReport = SubmitReport(request: Option<PostRequest>, status: FormStatus, formReset: bool)
}
