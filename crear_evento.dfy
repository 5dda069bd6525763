/** The admin "Crear evento" screen (admin/CrearEventoScreen.kt): the form
    state set by the text fields and the pickers, the checks of the submit
    button and the multipart request it sends. The selected image is known
    by the file name it is sent under. */
module CrearEventoScreen {
  import opened Text
  import opened Json
  import opened Http
  import opened Screen
  import opened Forms

  /** The text parts of `crearNuevoEventoMultipart`, and the image part. */
  datatype NuevoEvento = NuevoEvento(
    nombre: string, descripcion: string, precio: string, hora: string,
    fecha: string, idEstablecimiento: string, imagen: Option<string>)

  /** The request the submit button sends once its checks pass: the name
      and description as typed, the price with `,` turned into `.`, the
      time completed with seconds and the date trimmed. */
  function NuevoEventoRequest(nombre: string, descripcion: string, fecha: string, hora: string,
                              precio: string, establecimientoId: string, imagen: Option<string>): NuevoEvento {
    NuevoEvento(nombre, descripcion, ReplaceChar(precio, ',', '.'), EnsureSeconds(hora), Trim(fecha),
                establecimientoId, imagen)
  }

  /** The price keeps its length and every character but the decimal comma. */
  lemma PrecioNormalizado(precio: string)
    ensures var p := NuevoEventoRequest("", "", "", "", precio, "", None).precio;
      && |p| == |precio| && !ContainsChar(p, ',')
      && forall i :: 0 <= i < |precio| && precio[i] != ',' ==> p[i] == precio[i]
  {
  }

  /** A date and time chosen with the pickers are sent exactly as the
      pickers wrote them. */
  lemma PickedValuesSentAsIs(y: int, m: int, d: int, h: int, min: int, nombre: string, descripcion: string,
                             precio: string, establecimientoId: string, imagen: Option<string>)
    requires 1000 <= y <= 9999 && 0 <= m <= 11 && 1 <= d <= 31
    requires 0 <= h < 24 && 0 <= min < 60
    ensures var r := NuevoEventoRequest(nombre, descripcion, PickedDate(y, m, d), PickedTime(h, min),
                                        precio, establecimientoId, imagen);
      r.fecha == PickedDate(y, m, d) && r.hora == PickedTime(h, min)
  {
    PickedDateValid(y, m, d);
    PickedTimeValid(h, min);
  }

  /** The form state of the screen. */
  class CrearEvento {
    var nombre: string
    var descripcion: string
    var fecha: string
    var hora: string
    var precio: string
    var selectedImage: Option<string>

    constructor ()
      ensures nombre == "" && descripcion == "" && fecha == "" && hora == "" && precio == ""
      ensures selectedImage.None?
    {
      nombre, descripcion, fecha, hora, precio := "", "", "", "", "";
      selectedImage := None;
    }

    /** The date picker callback (month counted from 0). */
    method PickDate(y: int, m: int, d: int)
      modifies this
      ensures fecha == PickedDate(y, m, d)
      ensures nombre == old(nombre) && descripcion == old(descripcion) && hora == old(hora)
      ensures precio == old(precio) && selectedImage == old(selectedImage)
    {
      fecha := PickedDate(y, m, d);
    }

    /** The time picker callback. */
    method PickTime(h: int, min: int)
      modifies this
      ensures hora == PickedTime(h, min)
      ensures nombre == old(nombre) && descripcion == old(descripcion) && fecha == old(fecha)
      ensures precio == old(precio) && selectedImage == old(selectedImage)
    {
      hora := PickedTime(h, min);
    }

    /** The submit button: a blank name, date, time or price, and then a
        blank establishment id, is refused with no request (a blank
        description is allowed); otherwise the request is sent. */
    method Submit(establecimientoId: string) returns (r: Submit<NuevoEvento>)
      ensures (IsBlank(nombre) || IsBlank(fecha) || IsBlank(hora) || IsBlank(precio))
              ==> r == Rejected("Completa nombre, fecha, hora y precio")
      ensures !(IsBlank(nombre) || IsBlank(fecha) || IsBlank(hora) || IsBlank(precio)) && IsBlank(establecimientoId)
              ==> r == Rejected("Falta id_establecimiento")
      ensures r.Send? <==> (!IsBlank(nombre) && !IsBlank(fecha) && !IsBlank(hora) && !IsBlank(precio)
                            && !IsBlank(establecimientoId))
      ensures r.Send? ==>
        r.body == NuevoEventoRequest(nombre, descripcion, fecha, hora, precio, establecimientoId, selectedImage)
    {
      if IsBlank(nombre) || IsBlank(fecha) || IsBlank(hora) || IsBlank(precio) {
        return Rejected("Completa nombre, fecha, hora y precio");
      }
      if IsBlank(establecimientoId) {
        return Rejected("Falta id_establecimiento");
      }
      var precioNormalizado := ReplaceChar(precio, ',', '.');
      return Send(NuevoEvento(nombre, descripcion, precioNormalizado, EnsureSeconds(hora), Trim(fecha),
                              establecimientoId, selectedImage));
    }
  }

  /** The answer: a 2xx answer whose `id_evento` is not blank opens
      `datos_evento_admin/<id>`; anything else stays with a toast. */
  function AfterCreate(call: Call<Json>): (r: Next)
    ensures r.Navigate? <==> Delivered(call) && !IsBlank(OptString(call.body.value, "id_evento", ""))
    ensures r.Navigate? ==> r.route == "datos_evento_admin/" + OptString(call.body.value, "id_evento", "")
    ensures !r.Navigate? ==> r == Stay
  {
    match CreatedRoute(call, "id_evento", "datos_evento_admin/")
    case Some(route) => Navigate(route)
    case None => Stay
  }
}
