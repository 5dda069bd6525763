/** The admin "Editar oferta" screen (admin/EditarOfertaScreen.kt): the form
    state, its load from the stored offer, and the partial-update body the
    save button sends. Float parsing (`toFloatOrNull`) and printing
    (`Float.toString`) are parameters. */
module EditarOfertaScreen {
  import opened Text
  import opened Json
  import opened Models
  import opened Http
  import opened Screen

  /** The change set of a save: each text field when its trimmed value is
      non-empty and differs from the stored one, the price when it differs. */
  function OfertaChanges(base: Oferta, nombre: string, descripcion: string, p: real): Body {
    var n := Trim(nombre);
    var d := Trim(descripcion);
    (if n != "" && n != base.nombre then map["nombre_oferta" := TextField(n)] else map[])
    + (if d != "" && d != base.descripcion then map["descripcion_oferta" := TextField(d)] else map[])
    + (if p != base.precio then map["precio_oferta" := PriceField(p)] else map[])
  }

  /** What a partial update with `body` does to the stored offer: each key
      present replaces its field. */
  function PatchOferta(o: Oferta, body: Body): Oferta {
    o.(nombre := if "nombre_oferta" in body && body["nombre_oferta"].TextField? then body["nombre_oferta"].s else o.nombre,
       descripcion := if "descripcion_oferta" in body && body["descripcion_oferta"].TextField?
                      then body["descripcion_oferta"].s else o.descripcion,
       precio := if "precio_oferta" in body && body["precio_oferta"].PriceField? then body["precio_oferta"].x else o.precio)
  }

  /** The change set holds only the three offer keys, each exactly when its
      field changed, with the trimmed text or the parsed price. */
  lemma OfertaChangesKeys(base: Oferta, nombre: string, descripcion: string, p: real)
    ensures var b := OfertaChanges(base, nombre, descripcion, p);
      && (forall k :: k in b ==> k == "nombre_oferta" || k == "descripcion_oferta" || k == "precio_oferta")
      && ("nombre_oferta" in b <==> Trim(nombre) != "" && Trim(nombre) != base.nombre)
      && ("nombre_oferta" in b ==> b["nombre_oferta"] == TextField(Trim(nombre)))
      && ("descripcion_oferta" in b <==> Trim(descripcion) != "" && Trim(descripcion) != base.descripcion)
      && ("descripcion_oferta" in b ==> b["descripcion_oferta"] == TextField(Trim(descripcion)))
      && ("precio_oferta" in b <==> p != base.precio)
      && ("precio_oferta" in b ==> b["precio_oferta"] == PriceField(p))
  {
  }

  /** Applying the change set to the stored offer gives the offer the form
      shows: trimmed texts, a blank text keeping the stored value, and the
      parsed price. */
  lemma PatchOfertaChanges(base: Oferta, nombre: string, descripcion: string, p: real)
    ensures var o := PatchOferta(base, OfertaChanges(base, nombre, descripcion, p));
      && o.nombre == (if Trim(nombre) != "" then Trim(nombre) else base.nombre)
      && o.descripcion == (if Trim(descripcion) != "" then Trim(descripcion) else base.descripcion)
      && o.precio == p
      && o.oid == base.oid && o.idEstablecimiento == base.idEstablecimiento && o.imagenUrl == base.imagenUrl
  {
    OfertaChangesKeys(base, nombre, descripcion, p);
  }

  /** The form state of the screen. */
  class EditarOferta {
    var oferta: Option<Oferta>
    var loading: bool
    var nombre: string
    var descripcion: string
    var precioText: string

    constructor ()
      ensures oferta.None? && loading
      ensures nombre == "" && descripcion == "" && precioText == ""
    {
      oferta := None;
      loading := true;
      nombre := "";
      descripcion := "";
      precioText := "";
    }

    /** `LaunchedEffect(id)`: the answer's body (whatever the status) becomes
        the offer; when there is one it fills the form; `loading` ends in
        every case. The `try` has only a `finally`: an exception ends
        `loading` and then crashes the screen (`crashed`). */
    method Load(call: Call<Oferta>, show: real -> string) returns (crashed: bool)
      modifies this
      ensures !loading
      ensures crashed <==> call.Threw?
      ensures call.Answered? ==> oferta == call.body
      ensures crashed ==> oferta == old(oferta)
      ensures call.Answered? && call.body.Some? ==>
        var o := call.body.value;
        nombre == o.nombre && descripcion == o.descripcion && precioText == show(o.precio)
      ensures !(call.Answered? && call.body.Some?) ==>
        nombre == old(nombre) && descripcion == old(descripcion) && precioText == old(precioText)
    {
      if call.Answered? {
        oferta := call.body;
        if call.body.Some? {
          var o := call.body.value;
          nombre := o.nombre;
          descripcion := o.descripcion;
          precioText := show(o.precio);
        }
      }
      crashed := call.Threw?;
      loading := false;
    }

    /** The save button: nothing without a loaded offer; an unparseable
        price (after `,` becomes `.`) is refused; an empty change set is
        refused; otherwise the change set is sent. */
    method Save(parse: string -> Option<real>) returns (r: Submit<Body>)
      ensures oferta.None? ==> r == Ignored
      ensures oferta.Some? && parse(ReplaceChar(precioText, ',', '.')).None? ==> r == Rejected("Precio inválido")
      ensures oferta.Some? && parse(ReplaceChar(precioText, ',', '.')).Some? ==>
        var b := OfertaChanges(oferta.value, nombre, descripcion, parse(ReplaceChar(precioText, ',', '.')).value);
        (b == map[] ==> r == Rejected("No hay cambios")) && (b != map[] ==> r == Send(b))
    {
      if oferta.None? {
        return Ignored;
      }
      var base := oferta.value;
      var body: Body := map[];
      var n := Trim(nombre);
      if n != "" && n != base.nombre {
        body := body["nombre_oferta" := TextField(n)];
      }
      var d := Trim(descripcion);
      if d != "" && d != base.descripcion {
        body := body["descripcion_oferta" := TextField(d)];
      }
      var p := parse(ReplaceChar(precioText, ',', '.'));
      if p.None? {
        return Rejected("Precio inválido");
      } else if p.value != base.precio {
        body := body["precio_oferta" := PriceField(p.value)];
      }
      assert body == OfertaChanges(base, nombre, descripcion, p.value);
      if body == map[] {
        return Rejected("No hay cambios");
      }
      return Send(body);
    }
  }

  /** Saving straight after a load sends nothing, provided the stored texts
      are already trimmed and the price reads back as itself. */
  lemma NothingToSaveAfterLoad(o: Oferta, show: real -> string, parse: string -> Option<real>)
    requires Trim(o.nombre) == o.nombre && Trim(o.descripcion) == o.descripcion
    requires parse(ReplaceChar(show(o.precio), ',', '.')) == Some(o.precio)
    ensures OfertaChanges(o, o.nombre, o.descripcion, parse(ReplaceChar(show(o.precio), ',', '.')).value) == map[]
  {
  }
}
