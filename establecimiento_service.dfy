/** The establishments service (api/src/services/establecimiento_service.py):
    the creation handler's normalisation of the request data, its DELETE
    handler's cleanups, and the handlers that create an offer or an event
    for an establishment. The request data is the dict Flask gives
    (`get_json()` or `form.to_dict()`), as a list of members; the
    schema, the Mongo models and `photos.save` are parameters. */
module EstablecimientoService {
  import opened Text
  import opened Json
  import opened Urls
  import opened Service

  /** The strings of a list, as JSON strings. */
  function Strs(xs: seq<string>): (r: seq<Json>)
    ensures |r| == |xs| && forall i :: 0 <= i < |xs| ==> r[i] == JStr(xs[i])
  {
    seq(|xs|, i requires 0 <= i < |xs| => JStr(xs[i]))
  }

  /** `ambiente` after the normalisation: a string is split on `,`, any
      other true value is kept, and a missing or false value (None, "",
      [], 0) becomes []. */
  function NormalizeAmbiente(v: Option<Json>): (r: Json)
    ensures v.None? || !Truthy(v.value) ==> r == JArr([])
    ensures v.Some? && Truthy(v.value) && v.value.JStr? ==> r == JArr(Strs(Split(v.value.s, ',')))
    ensures v.Some? && Truthy(v.value) && !v.value.JStr? ==> r == v.value
  {
    if v.Some? && Truthy(v.value) then
      if v.value.JStr? then JArr(Strs(Split(v.value.s, ','))) else v.value
    else JArr([])
  }

  /** A `,`-join of a list whose values hold no comma is split back into
      that list, unless the list is [""], whose join is "". */
  lemma AmbienteRoundTrip(xs: seq<string>)
    requires xs != [] && xs != [""]
    requires forall i :: 0 <= i < |xs| ==> !ContainsChar(xs[i], ',')
    ensures NormalizeAmbiente(Some(JStr(Join(xs, ',')))) == JArr(Strs(xs))
  {
    SplitJoin(xs, ',');
    if |xs| == 1 {
      assert Join(xs, ',') == xs[0];
    } else {
      assert Join(xs, ',') == xs[0] + [','] + Join(xs[1..], ',');
      assert Join(xs, ',')[|xs[0]|] == ',';
    }
  }

  /** The exception: the join of [""] is empty and comes back as []. */
  lemma AmbienteSingleEmpty()
    ensures Join([""], ',') == ""
    ensures NormalizeAmbiente(Some(JStr(Join([""], ',')))) == JArr([])
  {
  }

  /** The data handed to the schema: `imagen_url` set, then `ambiente`
      normalised. */
  function Normalized(data: Members, upload: Option<string>, save: string -> string): Members {
    var d := Put(data, "imagen_url", JStr(ImagenUrl(upload, save, "default_establecimiento.png")));
    Put(d, "ambiente", NormalizeAmbiente(Get(d, "ambiente")))
  }

  /** The normalisation sets exactly `imagen_url` (the upload's stored path
      or the default establishment picture) and `ambiente`, and leaves
      every other key, `id_administrador` among them, as the client sent
      it. */
  lemma NormalizedFields(data: Members, upload: Option<string>, save: string -> string)
    ensures Get(Normalized(data, upload, save), "imagen_url") ==
      Some(JStr(ImagenUrl(upload, save, "default_establecimiento.png")))
    ensures Get(Normalized(data, upload, save), "ambiente") == Some(NormalizeAmbiente(Get(data, "ambiente")))
    ensures forall k :: k != "imagen_url" && k != "ambiente" ==>
      Get(Normalized(data, upload, save), k) == Get(data, k)
  {
    var v := JStr(ImagenUrl(upload, save, "default_establecimiento.png"));
    var d := Put(data, "imagen_url", v);
    var a := NormalizeAmbiente(Get(d, "ambiente"));
    GetPut(data, "imagen_url", v, "ambiente");
    GetPut(d, "ambiente", a, "imagen_url");
    forall k | k != "imagen_url" && k != "ambiente"
      ensures Get(Normalized(data, upload, save), k) == Get(data, k)
    {
      GetPut(data, "imagen_url", v, k);
      GetPut(d, "ambiente", a, k);
    }
  }

  /** `POST /establecimientos`: normalise the data in place, load it
      through the schema, insert it, link the new establishment to the
      client's `id_administrador`, and answer the inserted record.
      `str(resultado.get("id"))` is the parameter `pyStr`. The link that
      was made, if any, is returned in `linked`. */
  method CrearEstablecimiento(data: Members, upload: Option<string>, save: string -> string,
                              load: Members -> Attempt<Members>,
                              insert: Members -> Attempt<Members>,
                              pyStr: Option<Json> -> string,
                              link: (Option<Json>, string) -> Option<Failure>)
    returns (reply: Reply, linked: Option<(Option<Json>, string)>)
    ensures var d := Normalized(data, upload, save);
      linked.Some? <==> load(d).Returned? && insert(load(d).value).Returned?
    ensures var d := Normalized(data, upload, save);
      linked.Some? ==> linked.value == (Get(data, "id_administrador"), pyStr(Get(insert(load(d).value).value, "id")))
    ensures var d := Normalized(data, upload, save);
      load(d).Raised? ==> reply == CreateFailureReply(load(d).failure)
    ensures var d := Normalized(data, upload, save);
      load(d).Returned? && insert(load(d).value).Raised? ==> reply == CreateFailureReply(insert(load(d).value).failure)
    ensures linked.Some? ==>
      reply == if link(linked.value.0, linked.value.1).Some? then CreateFailureReply(link(linked.value.0, linked.value.1).value)
               else Reply(200, JObj(insert(load(Normalized(data, upload, save)).value).value))
  {
    var d := data;
    var imagenUrl := ImagenUrl(upload, save, "default_establecimiento.png");
    d := Put(d, "imagen_url", JStr(imagenUrl));
    var ambiente := Get(d, "ambiente");
    if ambiente.Some? && Truthy(ambiente.value) {
      d := Put(d, "ambiente", if ambiente.value.JStr? then JArr(Strs(Split(ambiente.value.s, ','))) else ambiente.value);
    } else {
      d := Put(d, "ambiente", JArr([]));
    }
    assert d == Normalized(data, upload, save);
    GetPut(data, "imagen_url", JStr(imagenUrl), "id_administrador");
    GetPut(Put(data, "imagen_url", JStr(imagenUrl)), "ambiente", NormalizeAmbiente(ambiente), "id_administrador");
    var validated := load(d);
    if validated.Raised? {
      return CreateFailureReply(validated.failure), None;
    }
    var resultado := insert(validated.value);
    if resultado.Raised? {
      return CreateFailureReply(resultado.failure), None;
    }
    var idEstablecimiento := pyStr(Get(resultado.value, "id"));
    var admin := Get(d, "id_administrador");
    linked := Some((admin, idEstablecimiento));
    var failed := link(admin, idEstablecimiento);
    if failed.Some? {
      return CreateFailureReply(failed.value), linked;
    }
    reply := Reply(200, JObj(resultado.value));
  }

  /** The creation handler's mapping: a `ValidationError` is answered with
      its first message, any other exception with 500 and its text. */
  function CreateFailureReply(f: Failure): (r: Reply)
    ensures f.ValidationError? ==> r == ValidationReply(f.messages)
    ensures !f.ValidationError? ==> r == Reply(500, ErrorBody(f.text))
  {
    if f.ValidationError? then ValidationReply(f.messages) else Reply(500, ErrorBody(f.text))
  }

  /** Only a validation error with a message is a 400; every other failure
      is a 500. */
  lemma CreateFailureStatus(f: Failure)
    ensures CreateFailureReply(f).status == 400 <==> f.ValidationError? && f.messages != [] && f.messages[0].1 != []
    ensures CreateFailureReply(f).status != 400 ==> CreateFailureReply(f).status == 500
  {
  }

  // ----- DELETE /establecimientos/<id> -----

  /** The cleanups after the establishment is deleted, each a call that
      may raise. */
  datatype Cleanup = UnlinkAdmin(admin: Option<Json>) | DeleteOfertas | DeleteEventos | DeleteReviews

  /** The cleanups in the order the handler makes them; the admin is the
      `id_administrador` of the deleted record. */
  function CleanupSteps(respuesta: Members): (r: seq<Cleanup>)
    ensures |r| == 4 && r[0].UnlinkAdmin? && r[0].admin == Get(respuesta, "id_administrador")
    ensures r[1] == DeleteOfertas && r[2] == DeleteEventos && r[3] == DeleteReviews
  {
    [UnlinkAdmin(Get(respuesta, "id_administrador")), DeleteOfertas, DeleteEventos, DeleteReviews]
  }

  /** The index of the first cleanup that raises, or the length when none
      does. */
  function FirstFailing(steps: seq<Cleanup>, run: Cleanup -> Option<Failure>): (n: nat)
    ensures n <= |steps|
    ensures forall k :: 0 <= k < n ==> run(steps[k]).None?
    ensures n < |steps| ==> run(steps[n]).Some?
    decreases |steps|
  {
    if steps == [] then 0
    else if run(steps[0]).Some? then 0
    else 1 + FirstFailing(steps[1..], run)
  }

  /** DELETE: delete the record, then unlink it from its admin and delete
      its offers, events and reviews, in that order; the first exception
      ends the handler. `done` lists the cleanups that were called. */
  method EliminarEstablecimiento(eliminar: Attempt<Members>, run: Cleanup -> Option<Failure>)
    returns (reply: Reply, done: seq<Cleanup>)
    ensures eliminar.Raised? ==> done == [] && reply == DeleteFailureReply(eliminar.failure, "Error inesperado: ")
    ensures eliminar.Returned? ==>
      var steps := CleanupSteps(eliminar.value);
      var n := FirstFailing(steps, run);
      && done == steps[..if n < 4 then n + 1 else 4]
      && reply == if n < 4 then DeleteFailureReply(run(steps[n]).value, "Error inesperado: ")
                  else Reply(200, JObj(eliminar.value))
    ensures reply.status == 200 <==>
      eliminar.Returned? && forall k :: 0 <= k < 4 ==> run(CleanupSteps(eliminar.value)[k]).None?
  {
    if eliminar.Raised? {
      return DeleteFailureReply(eliminar.failure, "Error inesperado: "), [];
    }
    var respuesta := eliminar.value;
    var steps := CleanupSteps(respuesta);
    var failed := run(steps[0]);
    done := [steps[0]];
    if failed.Some? {
      FirstFailingAt(steps, run, 0);
      return DeleteFailureReply(failed.value, "Error inesperado: "), done;
    }
    failed := run(steps[1]);
    done := done + [steps[1]];
    if failed.Some? {
      FirstFailingAt(steps, run, 1);
      return DeleteFailureReply(failed.value, "Error inesperado: "), done;
    }
    failed := run(steps[2]);
    done := done + [steps[2]];
    if failed.Some? {
      FirstFailingAt(steps, run, 2);
      return DeleteFailureReply(failed.value, "Error inesperado: "), done;
    }
    failed := run(steps[3]);
    done := done + [steps[3]];
    if failed.Some? {
      FirstFailingAt(steps, run, 3);
      return DeleteFailureReply(failed.value, "Error inesperado: "), done;
    }
    FirstFailingAt(steps, run, 4);
    reply := Reply(200, JObj(respuesta));
  }

  /** The first failure is at `i` when every step before `i` succeeds and
      step `i` fails (or `i` is the end). */
  lemma {:induction false} FirstFailingAt(steps: seq<Cleanup>, run: Cleanup -> Option<Failure>, i: nat)
    requires i <= |steps|
    requires forall k :: 0 <= k < i ==> run(steps[k]).None?
    requires i < |steps| ==> run(steps[i]).Some?
    ensures FirstFailing(steps, run) == i
    decreases i
  {
    if i > 0 {
      FirstFailingAt(steps[1..], run, i - 1);
    }
  }

  // ----- POST /establecimientos/nueva_oferta and /nuevo_evento -----

  /** The id of the created item when the backend accepted it: an answer
      that does not raise, decodes to an object, and has a true value under
      `idKey`. */
  function CreatedId(p: Attempt<Response>, idKey: string): (r: Option<Json>)
    ensures r.Some? <==>
      && p.Returned? && !RaisesForStatus(p.value) && p.value.json.Parsed? && p.value.json.value.JObj?
      && Get(p.value.json.value.members, idKey).Some? && Truthy(Get(p.value.json.value.members, idKey).value)
    ensures r.Some? ==> r == Get(p.value.json.value.members, idKey)
  {
    if p.Returned? && !RaisesForStatus(p.value) && p.value.json.Parsed? && p.value.json.value.JObj? then
      var id := Get(p.value.json.value.members, idKey);
      if id.Some? && Truthy(id.value) then id else None
    else None
  }

  /** The catch-all reply of `add_oferta`/`add_evento`: 500 with
      "Error inesperado: " before the exception's text. */
  function UnexpectedReply(text: string): Reply {
    Reply(500, ErrorBody("Error inesperado: " + text))
  }

  /** The text of the `ValueError` raised for an answer without a true id. */
  function MissingIdText(idKey: string): string {
    "No se recibió '" + idKey + "' en la respuesta del servidor."
  }

  /** The reply to an `HTTPError` from the item service: its JSON body
      under "error" when it has one, otherwise a fixed message with the
      error's text; in both cases the backend's status. */
  function ItemHttpErrorReply(response: Response): (r: Reply)
    requires RaisesForStatus(response)
    ensures r.status == response.status
    ensures response.json.Parsed? ==> r.body == JObj([("error", response.json.value)])
    ensures response.json.NotJson? ==>
      r.body == JObj([("error", JStr("Error HTTP sin respuesta JSON")), ("detalles", JStr(response.errorText))])
  {
    if response.json.Parsed? then Reply(response.status, JObj([("error", response.json.value)]))
    else Reply(HttpErrorStatus(response),
               JObj([("error", JStr("Error HTTP sin respuesta JSON")), ("detalles", JStr(response.errorText))]))
  }

  /** `add_oferta` (`idKey` "id_oferta") and `add_evento` (`idKey`
      "id_evento"): set the image path in the data, forward it to the
      item service, and link the new item to the establishment named by
      `id_establecimiento`. `sent` is the data forwarded, `linked` the
      link that was made. A forwarded `HTTPError` answer without JSON is
      given the backend's status (see `HttpErrorStatus`). */
  method AddItem(idKey: string, data: Members, upload: Option<string>, save: string -> string,
                 post: Members -> Attempt<Response>,
                 link: (Option<Json>, Json) -> Option<Failure>)
    returns (reply: Reply, sent: Members, linked: Option<(Option<Json>, Json)>)
    ensures Get(sent, "imagen_url") == Some(JStr(ImagenUrl(upload, save, "default_establecimiento.png")))
    ensures forall k :: k != "imagen_url" ==> Get(sent, k) == Get(data, k)
    // the link is made exactly for an accepted item, with its id
    ensures linked.Some? <==> CreatedId(post(sent), idKey).Some?
    ensures linked.Some? ==> linked.value == (Get(data, "id_establecimiento"), CreatedId(post(sent), idKey).value)
    ensures reply.status == 200 <==> linked.Some? && link(linked.value.0, linked.value.1).None?
    ensures reply.status == 200 ==> reply.body == post(sent).value.json.value
    // an answer without a true id is a 500
    ensures post(sent).Returned? && !RaisesForStatus(post(sent).value) && post(sent).value.json.Parsed?
            && post(sent).value.json.value.JObj? && CreatedId(post(sent), idKey).None? ==>
      reply == UnexpectedReply(MissingIdText(idKey))
    // a backend error keeps the backend's status
    ensures post(sent).Returned? && RaisesForStatus(post(sent).value) ==> reply == ItemHttpErrorReply(post(sent).value)
  {
    sent := Put(data, "imagen_url", JStr(ImagenUrl(upload, save, "default_establecimiento.png")));
    forall k | true ensures Get(sent, k) == (if k == "imagen_url" then Some(JStr(ImagenUrl(upload, save, "default_establecimiento.png"))) else Get(data, k)) {
      GetPut(data, "imagen_url", JStr(ImagenUrl(upload, save, "default_establecimiento.png")), k);
    }
    var idEstablecimiento := Get(sent, "id_establecimiento");
    linked := None;
    var p := post(sent);
    if p.Raised? {
      return UnexpectedReply(p.failure.text), sent, None;
    }
    var response := p.value;
    if RaisesForStatus(response) {
      return ItemHttpErrorReply(response), sent, None;
    }
    if response.json.NotJson? {
      return UnexpectedReply(response.json.message), sent, None;
    }
    var respuestaJson := response.json.value;
    if !respuestaJson.JObj? {
      return UnexpectedReply("'" + PyTypeName(respuestaJson) + "' object has no attribute 'get'"), sent, None;
    }
    var id := Get(respuestaJson.members, idKey);
    if id.None? || !Truthy(id.value) {
      return UnexpectedReply(MissingIdText(idKey)), sent, None;
    }
    linked := Some((idEstablecimiento, id.value));
    var failed := link(idEstablecimiento, id.value);
    if failed.Some? {
      return UnexpectedReply(failed.value.text), sent, linked;
    }
    reply := Reply(200, respuestaJson);
  }
}
