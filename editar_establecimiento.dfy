/** The admin "Editar establecimiento" screen
    (admin/EditarEstablecimientoScreen.kt): the load that fills the name
    and the ambiente selection, the grid toggle, and the whole-record
    update the save button sends. */
module EditarEstablecimientoScreen {
  import opened Text
  import opened Json
  import opened Models
  import opened Http
  import opened Screen
  import opened Ambientes

  /** `est.ambiente.map { normalizeText(it) }.toSet()` */
  function StoredKeys(ambiente: seq<string>): set<string> {
    set i | 0 <= i < |ambiente| :: NormalizeText(ambiente[i])
  }

  /** The selection a loaded record starts with, out of the grid's
      catalogue `all`. */
  function InitialSelection(all: seq<Ambiente>, e: Establecimiento): seq<Ambiente> {
    SelectByKey(all, StoredKeys(e.ambiente), NormalizeText)
  }

  /** The loaded selection is exactly the catalogue entries whose
      normalised name is among the normalised stored ambientes, once each. */
  lemma InitialSelectionSpec(all: seq<Ambiente>, e: Establecimiento)
    requires NoDup(all)
    ensures var r := InitialSelection(all, e);
      && NoDup(r)
      && forall a :: a in r <==>
           (a in all && exists i :: 0 <= i < |e.ambiente| && NormalizeText(e.ambiente[i]) == NormalizeText(a.name))
  {
    SelectByKeyNoDup(all, StoredKeys(e.ambiente), NormalizeText);
  }

  /** The record the save button sends: the loaded one with the trimmed
      name and the normalised selection. */
  function Updated(current: Establecimiento, nombre: string, sel: seq<Ambiente>): Establecimiento {
    current.(nombre := Trim(nombre), ambiente := NamesOf(sel, NormalizeText))
  }

  /** Reloading a saved record selects again every ambiente that was
      selected, and nothing whose key was not among the selected ones. */
  lemma UpdatedReloads(all: seq<Ambiente>, current: Establecimiento, nombre: string, sel: seq<Ambiente>)
    requires NoDup(all) && forall a :: a in sel ==> a in all
    ensures var again := InitialSelection(all, Updated(current, nombre, sel));
      && (forall a :: a in sel ==> a in again)
      && (forall a :: a in again ==> a in all && exists b :: b in sel && NormalizeText(b.name) == NormalizeText(a.name))
  {
    var u := Updated(current, nombre, sel);
    var again := InitialSelection(all, u);
    InitialSelectionSpec(all, u);
    assert |u.ambiente| == |sel|;
    forall a | a in sel ensures a in again {
      var i :| 0 <= i < |sel| && sel[i] == a;
      NormalizeTextIdempotent(a.name);
      assert NormalizeText(u.ambiente[i]) == NormalizeText(a.name);
    }
    forall a | a in again
      ensures exists b :: b in sel && NormalizeText(b.name) == NormalizeText(a.name)
    {
      var i :| 0 <= i < |u.ambiente| && NormalizeText(u.ambiente[i]) == NormalizeText(a.name);
      NormalizeTextIdempotent(sel[i].name);
      assert sel[i] in sel;
    }
  }

  class EditarEstablecimiento {
    /** The ambientes the grid offers (`AmbientesProvider.listaAmbientes`). */
    var catalogue: seq<Ambiente>
    var loading: bool
    var est: Option<Establecimiento>
    var nombre: string
    var selected: seq<Ambiente>

    /** The grid and the selection hold each ambiente once. */
    predicate Valid()
      reads this
    {
      NoDup(catalogue) && NoDup(selected)
    }

    constructor ()
      ensures Valid()
      ensures catalogue == Catalogue
      ensures loading && est.None? && nombre == "" && selected == []
    {
      CatalogueNoDup();
      catalogue := Catalogue;
      loading, est, nombre, selected := true, None, "", [];
    }

    /** `LaunchedEffect`: a 2xx answer with a body fills the form; a failure
        or an exception pops back; `loading` ends in every case. */
    method Load(call: Call<Establecimiento>) returns (next: Next)
      requires Valid()
      modifies this
      ensures Valid() && !loading && catalogue == old(catalogue)
      ensures Delivered(call) ==>
        (next == Stay && est == call.body
         && nombre == call.body.value.nombre && selected == InitialSelection(catalogue, call.body.value))
      ensures !Delivered(call) ==>
        (next == Pop(None) && est == old(est) && nombre == old(nombre) && selected == old(selected))
    {
      if Delivered(call) {
        var e := call.body.value;
        est := Some(e);
        nombre := e.nombre;
        SelectByKeyNoDup(catalogue, StoredKeys(e.ambiente), NormalizeText);
        selected := InitialSelection(catalogue, e);
        next := Stay;
      } else {
        next := Pop(None);
      }
      loading := false;
    }

    /** A click on a tile of the grid flips that ambiente only. */
    method ToggleAmbiente(a: Ambiente)
      requires Valid()
      modifies this
      ensures Valid()
      ensures selected == Toggle(old(selected), a)
      ensures a in selected <==> a !in old(selected)
      ensures forall b :: b != a ==> (b in selected <==> b in old(selected))
      ensures catalogue == old(catalogue) && loading == old(loading) && est == old(est) && nombre == old(nombre)
    {
      ToggleSpec(selected, a);
      selected := Toggle(selected, a);
    }

    /** The save button: nothing without a loaded record; a blank trimmed
        name is refused; otherwise the updated record is sent, equal to the
        loaded one but for its name and ambientes. */
    method Save() returns (r: Submit<Establecimiento>)
      ensures est.None? ==> r == Ignored
      ensures est.Some? && IsBlank(Trim(nombre)) ==> r == Rejected("El nombre no puede estar vacío")
      ensures est.Some? && !IsBlank(Trim(nombre)) ==> r == Send(Updated(est.value, nombre, selected))
      ensures r.Send? ==>
        var u := r.body;
        && u.nombre == Trim(nombre) && !IsBlank(u.nombre)
        && u.ambiente == NamesOf(selected, NormalizeText)
        && u.oid == est.value.oid && u.cif == est.value.cif && u.idAdministrador == est.value.idAdministrador
        && u.ofertas == est.value.ofertas && u.eventos == est.value.eventos
        && u.reviews == est.value.reviews && u.imagenUrl == est.value.imagenUrl
    {
      if est.None? {
        return Ignored;
      }
      var current := est.value;
      var nuevoNombre := Trim(nombre);
      if IsBlank(nuevoNombre) {
        return Rejected("El nombre no puede estar vacío");
      }
      var nuevosAmbientes := NamesOf(selected, NormalizeText);
      var updated := current.(nombre := nuevoNombre, ambiente := nuevosAmbientes);
      return Send(updated);
    }
  }

  /** The answer to the update: a 2xx status sets `refresh_establecimiento`
      on the previous entry and pops back; anything else stays. */
  function AfterSave(call: Call<Establecimiento>): (r: Next)
    ensures r.Pop? <==> call.Answered? && IsSuccessful(call.code)
    ensures r.Pop? ==> r.flag == Some("refresh_establecimiento")
    ensures !r.Pop? ==> r == Stay
  {
    PopOnSuccess(call, Some("refresh_establecimiento"))
  }
}
