/** The admin "Crear establecimiento" screen
    (admin/CrearEstablecimientoScreen.kt): the form state, the ambiente
    grid that toggles a selection, and the submit button's checks and
    multipart request. */
module CrearEstablecimientoScreen {
  import opened Text
  import opened Json
  import opened Models
  import opened Http
  import opened Screen
  import opened Ambientes

  /** The parts of `crearNuevoEstablecimientoMultipart`. */
  datatype NuevoEstablecimiento = NuevoEstablecimiento(
    nombre: string, cif: string, ambiente: string, imagen: Option<string>)

  class CrearEstablecimiento {
    var nombre: string
    var cif: string
    /** `selectedAmbientes`, in insertion order. */
    var selected: seq<Ambiente>
    var selectedImage: Option<string>

    /** The selection only ever holds catalogue entries, once each. */
    predicate Valid()
      reads this
    {
      NoDup(selected) && forall a :: a in selected ==> a in Catalogue
    }

    constructor ()
      ensures Valid()
      ensures nombre == "" && cif == "" && selected == [] && selectedImage.None?
    {
      nombre, cif, selected, selectedImage := "", "", [], None;
    }

    /** A click on a tile of the grid: the ambiente leaves the selection if
        it was in it and joins it at the end otherwise. */
    method ToggleAmbiente(a: Ambiente)
      requires Valid() && a in Catalogue
      modifies this
      ensures Valid()
      ensures selected == Toggle(old(selected), a)
      ensures a in selected <==> a !in old(selected)
      ensures forall b :: b != a ==> (b in selected <==> b in old(selected))
      ensures nombre == old(nombre) && cif == old(cif) && selectedImage == old(selectedImage)
    {
      ToggleSpec(selected, a);
      selected := Toggle(selected, a);
    }

    /** The submit button: a blank name or CIF is refused; otherwise the
        name and CIF go as typed and `ambiente` is the normalised names of
        the selection joined with `,`, which the service splits back into
        those names. */
    method Submit() returns (r: Submit<NuevoEstablecimiento>)
      requires Valid()
      ensures r.Send? <==> !IsBlank(nombre) && !IsBlank(cif)
      ensures !r.Send? ==> r == Rejected("Completa nombre y CIF")
      ensures r.Send? ==> r.body == NuevoEstablecimiento(nombre, cif, AmbienteField(selected), selectedImage)
      ensures r.Send? && selected != [] ==> Split(r.body.ambiente, ',') == NamesOf(selected, NormalizeText)
    {
      if IsBlank(nombre) || IsBlank(cif) {
        return Rejected("Completa nombre y CIF");
      }
      var ambientes := AmbienteField(selected);
      if selected != [] {
        AmbienteFieldSplits(selected);
      }
      return Send(NuevoEstablecimiento(nombre, cif, ambientes, selectedImage));
    }
  }

  /** The answer: a 2xx answer whose `id` is not blank opens the detail
      screen with the id as its data; anything else stays with a toast. */
  function AfterCreate(call: Call<Json>): (r: Next)
    ensures r.Navigate? <==> Delivered(call) && !IsBlank(OptString(call.body.value, "id", ""))
    ensures r.Navigate? ==> r.route == "admin_establecimiento_detalle?data=" + OptString(call.body.value, "id", "")
    ensures !r.Navigate? ==> r == Stay
  {
    match CreatedRoute(call, "id", "admin_establecimiento_detalle?data=")
    case Some(route) => Navigate(route)
    case None => Stay
  }
}
