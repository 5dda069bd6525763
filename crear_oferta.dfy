/** The admin "Crear oferta" screen (admin/CrearOfertaScreen.kt): the
    checks of the submit button and the multipart request it sends. */
module CrearOfertaScreen {
  import opened Text
  import opened Json
  import opened Http
  import opened Screen

  /** The text parts of `crearNuevaOfertaMultipart`, and the image part. */
  datatype NuevaOferta = NuevaOferta(
    nombre: string, descripcion: string, precio: string, idEstablecimiento: string, imagen: Option<string>)

  /** The form state of the screen. */
  class CrearOferta {
    var nombre: string
    var descripcion: string
    var precio: string
    var selectedImage: Option<string>

    constructor ()
      ensures nombre == "" && descripcion == "" && precio == "" && selectedImage.None?
    {
      nombre, descripcion, precio := "", "", "";
      selectedImage := None;
    }

    /** The submit button: a blank name, description or price is refused
        with no request; otherwise every field is sent exactly as typed,
        the price included (no comma normalisation here), with the
        establishment id whatever it is. */
    method Submit(establecimientoId: string) returns (r: Submit<NuevaOferta>)
      ensures r.Send? <==> !IsBlank(nombre) && !IsBlank(descripcion) && !IsBlank(precio)
      ensures !r.Send? ==> r == Rejected("Completa nombre, descripción y precio")
      ensures r.Send? ==> r.body == NuevaOferta(nombre, descripcion, precio, establecimientoId, selectedImage)
    {
      if IsBlank(nombre) || IsBlank(descripcion) || IsBlank(precio) {
        return Rejected("Completa nombre, descripción y precio");
      }
      return Send(NuevaOferta(nombre, descripcion, precio, establecimientoId, selectedImage));
    }
  }

  /** The answer: a 2xx answer whose `id_oferta` is not blank opens
      `datos_oferta_admin/<id>`; a failure, a missing body or a blank id
      stays with a toast. */
  function AfterCreate(call: Call<Json>): (r: Next)
    ensures r.Navigate? <==> Delivered(call) && !IsBlank(OptString(call.body.value, "id_oferta", ""))
    ensures r.Navigate? ==> r.route == "datos_oferta_admin/" + OptString(call.body.value, "id_oferta", "")
    ensures !r.Navigate? ==> r == Stay
  {
    match CreatedRoute(call, "id_oferta", "datos_oferta_admin/")
    case Some(route) => Navigate(route)
    case None => Stay
  }
}
