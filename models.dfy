/** The records the screens exchange with the backend, and the fixed
    catalogue of ambientes (the model classes, ui/UiModels.kt,
    data/AmbientesProvider.kt). Prices are the parsed `Float`/`Double`
    values, as reals. */
module Models {
  import opened Json

  /** An establishment as the screens use it: `ofertas`, `eventos` and
      `reviews` hold ids. `oid` is `_id?.$oid`. */
  datatype Establecimiento = Establecimiento(
    oid: Option<string>,
    cif: string,
    nombre: string,
    idAdministrador: string,
    ambiente: seq<string>,
    ofertas: seq<string>,
    eventos: seq<string>,
    reviews: seq<string>,
    imagenUrl: string)
  {
    /** The `est.id` the screens read (`estToJson`, the user home cards).
        The Kotlin class declares no `id` property; it is read here as
        `_id?.$oid ?: ""`, the `id` that `Evento` declares. */
    function Id(): string {
      if oid.Some? then oid.value else ""
    }
  }

  datatype Evento = Evento(
    oid: Option<string>,
    nombre: string,
    descripcion: string,
    fecha: string,
    precio: real,
    hora: string,
    idEstablecimiento: string,
    imagenUrl: string,
    nombreEstablecimiento: string)

  datatype Oferta = Oferta(
    oid: Option<string>,
    nombre: string,
    descripcion: string,
    precio: real,
    idEstablecimiento: string,
    imagenUrl: string)

  datatype UsuarioPerfil = UsuarioPerfil(
    id: string, nombre: string, nombreUsuario: string, email: string,
    telefono: string, fechaNacIso: string, imagenUrl: string, preferencias: seq<string>)

  datatype ParticipantePerfil = ParticipantePerfil(nombreUsuario: string, imagenUrl: string)

  datatype ActividadPerfil = ActividadPerfil(
    id: string, nombre: string, descripcion: string, fechaIso: string,
    hora: string, ubicacion: string, participantes: seq<ParticipantePerfil>)

  datatype ReviewPerfil = ReviewPerfil(
    id: string, calificacion: real, mensaje: string,
    nombreEstablecimiento: string, fechaCreacionIso: string)

  datatype ParticipanteUI = ParticipanteUI(id: string, nombreUsuario: string, imagenUrl: string)

  datatype ActividadUI = ActividadUI(
    id: string, nombre: string, descripcion: string, fechaIso: string,
    hora: string, ubicacion: string, idCreador: string, participantes: seq<ParticipanteUI>)

  datatype EventoUI = EventoUI(
    id: string, nombre: string, descripcion: string, fechaIso: string, precio: real,
    hora: string, idEstablecimiento: string, nombreEstablecimiento: string, imagenUrl: string)

  /** An ambiente of the catalogue; the drawable is named by its resource. */
  datatype Ambiente = Ambiente(name: string, icon: string)

  /** `AmbientesProvider.listaAmbientes`, in its order. */
  const Catalogue: seq<Ambiente> := [
    Ambiente("Chill", "chill"),
    Ambiente("Monólogos", "monologos"),
    Ambiente("Cine", "cine"),
    Ambiente("Discoteca", "discoteca"),
    Ambiente("Bar", "bar"),
    Ambiente("Cervezas", "cervezas"),
    Ambiente("Rock", "rock"),
    Ambiente("En Vivo", "en_vivo"),
    Ambiente("Reggaeton", "reggaeton"),
    Ambiente("Latino", "latino"),
    Ambiente("Deportes", "deportes"),
    Ambiente("Karaoke", "karaoke")
  ]
}
