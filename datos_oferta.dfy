/** The user offer detail screen (user/DatosOfertaScreen.kt): the price
    badge, the title, the header image and the "more offers" choice. The
    "%.0f €" formatting of the price is a parameter `fmt`. */
module DatosOfertaScreen {
  import opened Text
  import opened Json
  import opened Models
  import opened Urls
  import opened Screen
  import opened MoreItems

  /** `oferta?.precio_oferta?.let { fmt(it) } ?: ""`: Gson fills the
      primitive `Float` with 0 when the key is absent, so only a missing
      offer gives "". */
  function PriceText(oferta: Option<Oferta>, fmt: real -> string): (r: string)
    ensures oferta.None? ==> r == ""
    ensures oferta.Some? ==> r == fmt(oferta.value.precio)
  {
    if oferta.None? then "" else fmt(oferta.value.precio)
  }

  /** The badge over the image shows the price text when it is not blank. */
  function PriceBadge(precio: string): (r: Option<string>)
    ensures r.Some? <==> !IsBlank(precio)
    ensures r.Some? ==> r.value == precio
  {
    if IsBlank(precio) then None else Some(precio)
  }

  /** With a formatter that always writes something (as "%.0f €" does), the
      badge shows exactly when an offer is loaded. */
  lemma BadgeIffOffer(oferta: Option<Oferta>, fmt: real -> string)
    requires forall x :: !IsBlank(fmt(x))
    ensures PriceBadge(PriceText(oferta, fmt)).Some? <==> oferta.Some?
  {
    if oferta.None? {
      assert IsBlank("");
    }
  }

  /** The top bar title. */
  function Title(nombre: string): (r: string)
    ensures |r| == |"Oferta en "| + |nombre| && r[|"Oferta en "|..] == nombre
  {
    "Oferta en " + nombre
  }

  /** The header image: the offer's image on the emulator host, `default.png`
      for a missing or blank path. */
  function HeaderImage(oferta: Option<Oferta>): string {
    BuildImageUrl(EmulatedDefaultPng, if oferta.Some? then Some(oferta.value.imagenUrl) else None)
  }

  lemma HeaderImageOnEmulator(oferta: Option<Oferta>)
    ensures !ContainsLoopback(HeaderImage(oferta))
    ensures oferta.None? ==> HeaderImage(oferta) == EmulatorBaseUrl + PhotosDir + Emulatorize("default.png")
  {
    EmulatedNoLoopback(EmulatedDefaultPng, if oferta.Some? then Some(oferta.value.imagenUrl) else None);
    EmulatedImageUrl("default.png", if oferta.Some? then Some(oferta.value.imagenUrl) else None);
  }

  /** A click on another offer: the handle is rewritten and the screen
      opens again (single top) on "datos_oferta". */
  method ChooseOferta(back: SavedStateHandle?, shown: Shown<Oferta>, o: Oferta,
                      encodeOne: Oferta -> string, encodeList: seq<Oferta> -> string) returns (next: Next)
    modifies back
    ensures back != null ==>
      back.values == Handed(old(back.values), OfertaKeys, shown, o, encodeOne, encodeList)
    ensures next == Navigate("datos_oferta")
  {
    Choose(back, OfertaKeys, shown, o, encodeOne, encodeList);
    next := Navigate("datos_oferta");
  }
}
