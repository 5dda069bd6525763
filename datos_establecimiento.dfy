/** The user establishment detail screen (user/DatosEstablecimientoScreen.kt):
    the launch effect that loads the establishment, its rating and its
    event, offer and review lists one call per id, the tab buttons, and
    the texts of its cards. Number-to-text conversions of prices are
    given as the text they produce. */
module DatosEstablecimientoScreen {
  import opened Text
  import opened Json
  import opened Models
  import opened Http
  import opened Urls
  import opened Forms

  /** `EstablecimientoRating` as Gson fills it: either field may be null. */
  datatype RatingBody = RatingBody(media: Option<real>, nReviews: Option<int>)

  /** The review inside a `ReviewResponse`. */
  datatype ReviewBody = ReviewBody(calificacion: Option<real>, mensaje: Option<string>)

  /** `ReviewResponse`: the author's name and the review, either may be null. */
  datatype ReviewResponse = ReviewResponse(nombreUsuario: Option<string>, review: Option<ReviewBody>)

  /** `est?.eventos`, `est?.ofertas`, `est?.reviews`: no establishment, no ids. */
  function EventoIds(est: Option<Establecimiento>): seq<string> {
    if est.Some? then est.value.eventos else []
  }

  function OfertaIds(est: Option<Establecimiento>): seq<string> {
    if est.Some? then est.value.ofertas else []
  }

  function ReviewIds(est: Option<Establecimiento>): seq<string> {
    if est.Some? then est.value.reviews else []
  }

  /** The state of the screen. */
  class DatosEstablecimiento {
    var est: Option<Establecimiento>
    var rating: real
    var reviewsCount: int
    var eventos: seq<Evento>
    var ofertas: seq<Oferta>
    var reviews: seq<ReviewResponse>
    var selectedTab: int

    constructor ()
      ensures est.None? && rating == 0.0 && reviewsCount == 0
      ensures eventos == [] && ofertas == [] && reviews == [] && selectedTab == 0
    {
      est := None;
      rating := 0.0;
      reviewsCount := 0;
      eventos, ofertas, reviews := [], [], [];
      selectedTab := 0;
    }

    /** The three fetch loops, in order; an exception in one abandons it
        and the loops after it, leaving their lists as they were. */
    method LoadLists(fetchEvento: string -> Call<Evento>, fetchOferta: string -> Call<Oferta>,
                     fetchReview: string -> Call<ReviewResponse>)
      modifies this
      ensures est == old(est) && rating == old(rating) && reviewsCount == old(reviewsCount)
      ensures selectedTab == old(selectedTab)
      ensures var evs := Fetched(EventoIds(est), fetchEvento);
        var ofs := Fetched(OfertaIds(est), fetchOferta);
        var revs := Fetched(ReviewIds(est), fetchReview);
        && eventos == (if evs.Some? then evs.value else old(eventos))
        && ofertas == (if evs.Some? && ofs.Some? then ofs.value else old(ofertas))
        && reviews == (if evs.Some? && ofs.Some? && revs.Some? then revs.value else old(reviews))
    {
      var evs := CollectFetched(EventoIds(est), fetchEvento);
      if evs.None? {
        return;
      }
      eventos := evs.value;
      var ofs := CollectFetched(OfertaIds(est), fetchOferta);
      if ofs.None? {
        return;
      }
      ofertas := ofs.value;
      var revs := CollectFetched(ReviewIds(est), fetchReview);
      if revs.None? {
        return;
      }
      reviews := revs.value;
    }

    /** The launch effect: a 2xx answer sets the establishment (to null
        when the body is), a 2xx rating answer sets the rating and count
        (0.0 and 0 for nulls), then the lists are fetched. An exception
        stops the effect where it happens. */
    method Load(rEst: Call<Establecimiento>, rRat: Call<RatingBody>,
                fetchEvento: string -> Call<Evento>, fetchOferta: string -> Call<Oferta>,
                fetchReview: string -> Call<ReviewResponse>)
      modifies this
      ensures selectedTab == old(selectedTab)
      ensures rEst.Threw? ==>
        est == old(est) && rating == old(rating) && reviewsCount == old(reviewsCount)
        && eventos == old(eventos) && ofertas == old(ofertas) && reviews == old(reviews)
      ensures rEst.Answered? ==> est == (if IsSuccessful(rEst.code) then rEst.body else old(est))
      ensures rEst.Answered? && rRat.Threw? ==>
        rating == old(rating) && reviewsCount == old(reviewsCount)
        && eventos == old(eventos) && ofertas == old(ofertas) && reviews == old(reviews)
      ensures rEst.Answered? && rRat.Answered? && IsSuccessful(rRat.code) ==>
        && rating == (if rRat.body.Some? && rRat.body.value.media.Some? then rRat.body.value.media.value else 0.0)
        && reviewsCount == (if rRat.body.Some? && rRat.body.value.nReviews.Some? then rRat.body.value.nReviews.value else 0)
      ensures rEst.Answered? && rRat.Answered? && !IsSuccessful(rRat.code) ==>
        rating == old(rating) && reviewsCount == old(reviewsCount)
      ensures rEst.Answered? && rRat.Answered? ==>
        var evs := Fetched(EventoIds(est), fetchEvento);
        var ofs := Fetched(OfertaIds(est), fetchOferta);
        var revs := Fetched(ReviewIds(est), fetchReview);
        && eventos == (if evs.Some? then evs.value else old(eventos))
        && ofertas == (if evs.Some? && ofs.Some? then ofs.value else old(ofertas))
        && reviews == (if evs.Some? && ofs.Some? && revs.Some? then revs.value else old(reviews))
    {
      if rEst.Threw? {
        return;
      }
      if IsSuccessful(rEst.code) {
        est := rEst.body;
      }
      if rRat.Threw? {
        return;
      }
      if IsSuccessful(rRat.code) {
        var rr := rRat.body;
        rating := if rr.Some? && rr.value.media.Some? then rr.value.media.value else 0.0;
        reviewsCount := if rr.Some? && rr.value.nReviews.Some? then rr.value.nReviews.value else 0;
      }
      LoadLists(fetchEvento, fetchOferta, fetchReview);
    }

    /** The "Ofertas" and "Eventos" buttons. */
    method SelectTab(tab: int)
      requires tab == 0 || tab == 1
      modifies this
      ensures selectedTab == tab
      ensures est == old(est) && eventos == old(eventos) && ofertas == old(ofertas) && reviews == old(reviews)
      ensures rating == old(rating) && reviewsCount == old(reviewsCount)
    {
      selectedTab := tab;
    }
  }

  /** Once every id of a loaded establishment is delivered, its three lists
      hold the fetched records one per id, in the order of its id lists. */
  lemma ListsInIdOrder(e: Establecimiento, fetchEvento: string -> Call<Evento>, fetchOferta: string -> Call<Oferta>)
    requires forall i :: 0 <= i < |e.eventos| ==> Delivered(fetchEvento(e.eventos[i]))
    requires forall i :: 0 <= i < |e.ofertas| ==> Delivered(fetchOferta(e.ofertas[i]))
    ensures var evs := Fetched(EventoIds(Some(e)), fetchEvento);
      && evs.Some? && |evs.value| == |e.eventos|
      && forall i :: 0 <= i < |e.eventos| ==> Delivered(fetchEvento(e.eventos[i])) && evs.value[i] == fetchEvento(e.eventos[i]).body.value
    ensures var ofs := Fetched(OfertaIds(Some(e)), fetchOferta);
      && ofs.Some? && |ofs.value| == |e.ofertas|
      && forall i :: 0 <= i < |e.ofertas| ==> Delivered(fetchOferta(e.ofertas[i])) && ofs.value[i] == fetchOferta(e.ofertas[i]).body.value
  {
    FetchedSpec(e.eventos, fetchEvento);
    FetchedSpec(e.ofertas, fetchOferta);
  }

  /** Which list the tab row shows. */
  datatype Listing = OfertaCards(ofertas: seq<Oferta>) | EventoCards(eventos: seq<Evento>)

  /** Tab 0 lists the offers; any other tab lists the events. */
  function Listed(selectedTab: int, ofertas: seq<Oferta>, eventos: seq<Evento>): (r: Listing)
    ensures r.OfertaCards? <==> selectedTab == 0
    ensures r.OfertaCards? ==> r.ofertas == ofertas
    ensures r.EventoCards? ==> r.eventos == eventos
  {
    if selectedTab == 0 then OfertaCards(ofertas) else EventoCards(eventos)
  }

  /** `reviews.take(1)`: at most the first review is shown. */
  function ShownReviews(reviews: seq<ReviewResponse>): (r: seq<ReviewResponse>)
    ensures |r| <= 1
    ensures |r| == 1 <==> reviews != []
    ensures r == reviews[..|r|]
  {
    if reviews == [] then [] else [reviews[0]]
  }

  /** The review card: "Usuario", 0 and "" for the null parts; its five
      stars fill `calificacion.toInt()` clamped to 0..5. */
  datatype ReviewCardView = ReviewCardView(usuario: string, stars: seq<bool>, mensaje: string)

  function ReviewCardOf(r: ReviewResponse): (v: ReviewCardView) {
    var c := if r.review.Some? && r.review.value.calificacion.Some? then r.review.value.calificacion.value else 0.0;
    ReviewCardView(
      if r.nombreUsuario.Some? then r.nombreUsuario.value else "Usuario",
      StarRow(CoerceIn(Truncate(c), 0, 5)),
      if r.review.Some? && r.review.value.mensaje.Some? then r.review.value.mensaje.value else "")
  }

  /** A review card shows between 0 and 5 filled stars, the first ones: the
      truncated rating when it lies in 0..5, none for a rating below 1 and
      all five from 5 on. */
  lemma ReviewCardStars(r: ReviewResponse)
    ensures var c := if r.review.Some? && r.review.value.calificacion.Some? then r.review.value.calificacion.value else 0.0;
      var n := FilledCount(ReviewCardOf(r).stars);
      && 0 <= n <= 5
      && n == CoerceIn(Truncate(c), 0, 5)
      && (c < 1.0 ==> n == 0)
      && (c >= 5.0 ==> n == 5)
      && (0.0 <= c < 5.0 ==> n as real <= c < n as real + 1.0)
  {
    var c := if r.review.Some? && r.review.value.calificacion.Some? then r.review.value.calificacion.value else 0.0;
    StarRowCount(CoerceIn(Truncate(c), 0, 5));
  }

  /** The title: the establishment's name, or "Establecimiento" when it is
      blank or nothing is loaded. */
  function Title(est: Option<Establecimiento>): (r: string)
    ensures est.None? ==> r == "Establecimiento"
    ensures est.Some? && IsBlank(est.value.nombre) ==> r == "Establecimiento"
    ensures est.Some? && !IsBlank(est.value.nombre) ==> r == est.value.nombre
  {
    var nombre := if est.Some? then est.value.nombre else "";
    if IsBlank(nombre) then "Establecimiento" else nombre
  }

  /** The price label of an offer or event card: shown, with " €", only for
      a non-blank price text. */
  function PriceLabel(precio: string): (r: Option<string>)
    ensures r.Some? <==> !IsBlank(precio)
    ensures r.Some? ==> r.value == precio + " €"
  {
    if IsBlank(precio) then None else Some(precio + " €")
  }

  /** The header image: the establishment's image on the emulator host, or
      the default establishment picture when none is loaded. */
  function HeaderImage(est: Option<Establecimiento>): string {
    BuildImageUrl(EmulatedDefaultEstablecimiento, if est.Some? then Some(est.value.imagenUrl) else None)
  }

  /** Every image of the screen is fetched from the emulator host, never
      from the loopback address. */
  lemma HeaderImageOnEmulator(est: Option<Establecimiento>)
    ensures !ContainsLoopback(HeaderImage(est))
    ensures est.None? ==> HeaderImage(est) == EmulatorBaseUrl + PhotosDir + Emulatorize("default_establecimiento.png")
  {
    EmulatedNoLoopback(EmulatedDefaultEstablecimiento, if est.Some? then Some(est.value.imagenUrl) else None);
    EmulatedImageUrl("default_establecimiento.png", if est.Some? then Some(est.value.imagenUrl) else None);
  }
}
