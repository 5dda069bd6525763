/** The user "Crear actividad" screen (user/CrearActividadScreen.kt): the
    form state set by the text fields and the pickers, the submit handler
    that toggles `loading` around the request, and what its answer does. */
module CrearActividadScreen {
  import opened Text
  import opened Json
  import opened Http
  import opened Screen
  import opened Forms

  /** `NuevaActividadRequest`. */
  datatype NuevaActividad = NuevaActividad(
    nombre: string, descripcion: string, ubicacion: string, fecha: string, hora: string)

  const MissingFields: string := "Completa todos los campos"
  const NetworkError: string := "Error de red"
  const ReloadFlag: string := "reload_actividades"

  /** What the answer to the create request does: where the screen goes and
      the snackbar it shows, if any. */
  datatype Outcome = Outcome(next: Next, snackbar: Option<string>)

  /** The form state of the screen. */
  class CrearActividad {
    var nombre: string
    var descripcion: string
    var ubicacion: string
    var fecha: string
    var hora: string
    var loading: bool

    constructor ()
      ensures nombre == "" && descripcion == "" && ubicacion == "" && fecha == "" && hora == ""
      ensures !loading
    {
      nombre, descripcion, ubicacion, fecha, hora := "", "", "", "", "";
      loading := false;
    }

    /** The date picker callback (month counted from 0). */
    method PickDate(y: int, m: int, d: int)
      modifies this
      ensures fecha == PickedDate(y, m, d)
      ensures nombre == old(nombre) && descripcion == old(descripcion) && ubicacion == old(ubicacion)
      ensures hora == old(hora) && loading == old(loading)
    {
      fecha := PickedDate(y, m, d);
    }

    /** The time picker callback. */
    method PickTime(h: int, min: int)
      modifies this
      ensures hora == PickedTime(h, min)
      ensures nombre == old(nombre) && descripcion == old(descripcion) && ubicacion == old(ubicacion)
      ensures fecha == old(fecha) && loading == old(loading)
    {
      hora := PickedTime(h, min);
    }

    /** The submit button: disabled while `loading`; a blank field of the
        five is refused with a snackbar and no request; otherwise `loading`
        is set and the request is sent with the three texts trimmed and the
        date and time as they are. */
    method Submit() returns (r: Submit<NuevaActividad>)
      modifies this
      ensures old(loading) ==> r == Ignored
      ensures !old(loading) && (IsBlank(nombre) || IsBlank(descripcion) || IsBlank(ubicacion)
                                || IsBlank(fecha) || IsBlank(hora))
              ==> r == Rejected(MissingFields)
      ensures r.Send? <==> (!old(loading) && !IsBlank(nombre) && !IsBlank(descripcion) && !IsBlank(ubicacion)
                            && !IsBlank(fecha) && !IsBlank(hora))
      ensures r.Send? ==> r.body == NuevaActividad(Trim(nombre), Trim(descripcion), Trim(ubicacion), fecha, hora)
      ensures r.Send? ==> r.body.nombre != [] && r.body.descripcion != [] && r.body.ubicacion != []
      ensures loading == (old(loading) || r.Send?)
      ensures nombre == old(nombre) && descripcion == old(descripcion) && ubicacion == old(ubicacion)
      ensures fecha == old(fecha) && hora == old(hora)
    {
      if loading {
        return Ignored;
      }
      if IsBlank(nombre) || IsBlank(descripcion) || IsBlank(ubicacion) || IsBlank(fecha) || IsBlank(hora) {
        return Rejected(MissingFields);
      }
      BlankIffTrimEmpty(nombre);
      BlankIffTrimEmpty(descripcion);
      BlankIffTrimEmpty(ubicacion);
      loading := true;
      r := Send(NuevaActividad(Trim(nombre), Trim(descripcion), Trim(ubicacion), fecha, hora));
    }

    /** The answer: an exception shows "Error de red" and stays; a 2xx status
        marks `reload_actividades` and pops; any other status stays with no
        message. `loading` is cleared in every case. */
    method Answer(call: Call<Json>) returns (o: Outcome)
      modifies this
      ensures !loading
      ensures call.Threw? ==> o == Outcome(Stay, Some(NetworkError))
      ensures o.next.Pop? <==> call.Answered? && IsSuccessful(call.code)
      ensures o.next.Pop? ==> o.next.flag == Some(ReloadFlag)
      ensures call.Answered? ==> o.snackbar.None? && (o.next.Pop? || o.next == Stay)
      ensures nombre == old(nombre) && descripcion == old(descripcion) && ubicacion == old(ubicacion)
      ensures fecha == old(fecha) && hora == old(hora)
    {
      loading := false;
      if call.Threw? {
        return Outcome(Stay, Some(NetworkError));
      }
      o := Outcome(PopOnSuccess(call, Some(ReloadFlag)), None);
    }
  }

  /** Dates and times chosen with the pickers pass the blank check and are
      sent exactly as the pickers wrote them. */
  lemma PickedValuesSentAsIs(y: int, m: int, d: int, h: int, min: int)
    requires 1000 <= y <= 9999 && 0 <= m <= 11 && 1 <= d <= 31
    requires 0 <= h < 24 && 0 <= min < 60
    ensures !IsBlank(PickedDate(y, m, d)) && !IsBlank(PickedTime(h, min))
    ensures IsYyyyMmDd(PickedDate(y, m, d))
  {
    PickedDateValid(y, m, d);
    PickedTimeValid(h, min);
    BlankIffTrimEmpty(PickedDate(y, m, d));
    BlankIffTrimEmpty(PickedTime(h, min));
  }
}
