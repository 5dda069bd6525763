/** The establishment admins service
    (api/src/services/administrador_establecimientos_service.py): creating
    an admin, deleting the caller's account, and the forwarding of a new
    establishment to the establishments service with the caller's identity.
    The schema, the Mongo model, `photos.save`, `str()` of an id and the
    forwarded `requests.post` are parameters. */
module AdministradorEstablecimientosService {
  import opened Text
  import opened Json
  import opened Urls
  import opened Service
  import opened EstablecimientoService

  /** `POST /administrador_establecimiento`: set `imagen_url` in the data
      (the default admin picture without an upload), load it through the
      schema, insert it, and answer the inserted record. `sent` is what
      the schema was given. */
  method CrearAdministrador(data: Members, upload: Option<string>, save: string -> string,
                            load: Members -> Attempt<Members>,
                            insert: Members -> Attempt<Json>)
    returns (reply: Reply, sent: Members)
    ensures Get(sent, "imagen_url") == Some(JStr(ImagenUrl(upload, save, "default.png")))
    ensures forall k :: k != "imagen_url" ==> Get(sent, k) == Get(data, k)
    ensures load(sent).Raised? ==> reply == CreateAdminFailureReply(load(sent).failure)
    ensures load(sent).Returned? ==>
      reply == match insert(load(sent).value)
               case Raised(f) => CreateAdminFailureReply(f)
               case Returned(r) => Reply(200, r)
  {
    var imagenUrl := ImagenUrl(upload, save, "default.png");
    sent := Put(data, "imagen_url", JStr(imagenUrl));
    forall k | k != "imagen_url" ensures Get(sent, k) == Get(data, k) {
      GetPut(data, "imagen_url", JStr(imagenUrl), k);
    }
    GetPut(data, "imagen_url", JStr(imagenUrl), "imagen_url");
    var validated := load(sent);
    if validated.Raised? {
      return CreateAdminFailureReply(validated.failure), sent;
    }
    var resultado := insert(validated.value);
    if resultado.Raised? {
      return CreateAdminFailureReply(resultado.failure), sent;
    }
    reply := Reply(200, resultado.value);
  }

  /** The admin creation's mapping: a `ValidationError` is answered with
      its first message, a `ValueError` with 400 and its text, anything
      else with 500 and its text. */
  function CreateAdminFailureReply(f: Failure): (r: Reply)
    ensures f.ValidationError? ==> r == ValidationReply(f.messages)
    ensures f.ValueError? ==> r == Reply(400, ErrorBody(f.text))
    ensures f.RuntimeError? || f.OtherError? ==> r == Reply(500, ErrorBody(f.text))
  {
    match f
    case ValidationError(messages, _) => ValidationReply(messages)
    case ValueError(t) => Reply(400, ErrorBody(t))
    case _ => Reply(500, ErrorBody(f.text))
  }

  /** Unlike the establishment creation, a `ValueError` is a client error
      here; only a `RuntimeError` or another exception is a 500 with a
      JSON body. */
  lemma CreateAdminFailureStatus(f: Failure)
    ensures CreateAdminFailureReply(f).status == 400 <==>
      f.ValueError? || (f.ValidationError? && f.messages != [] && f.messages[0].1 != [])
    ensures f.ValueError? ==> CreateFailureReply(f).status == 500
    ensures CreateAdminFailureReply(f).status != 400 ==> CreateAdminFailureReply(f).status == 500
  {
  }

  /** `DELETE /administrador_establecimiento`: the id is `str(admin.get("_id"))`
      of the JWT identity, taken before the `try`, so an identity that is
      not an object escapes the handler; then the model's delete. */
  method EliminarAdministrador(identity: Json, pyStr: Option<Json> -> string,
                               eliminar: string -> Attempt<Json>)
    returns (reply: Reply)
    ensures !identity.JObj? ==> reply == ServerErrorPage
    ensures identity.JObj? ==>
      reply == match eliminar(pyStr(Get(identity.members, "_id")))
               case Raised(f) => DeleteFailureReply(f, "")
               case Returned(r) => Reply(200, r)
    ensures reply.status == 404 <==>
      identity.JObj? && eliminar(pyStr(Get(identity.members, "_id"))).Raised?
      && eliminar(pyStr(Get(identity.members, "_id"))).failure.ValueError?
  {
    if !identity.JObj? {
      return ServerErrorPage;
    }
    var id := pyStr(Get(identity.members, "_id"));
    var respuesta := eliminar(id);
    if respuesta.Raised? {
      return DeleteFailureReply(respuesta.failure, "");
    }
    reply := Reply(200, respuesta.value);
  }

  // ----- POST /administrador_establecimiento/nuevo_establecimiento -----

  /** A submitted form: its fields in order, a name repeated for each of
      its values. */
  type Form = seq<(string, string)>

  /** `request.form.get(name)`: the first value sent under the name. */
  function FirstValue(form: Form, name: string): (r: Option<string>)
    ensures r.Some? ==> (name, r.value) in form
    ensures r.None? <==> forall i :: 0 <= i < |form| ==> form[i].0 != name
    decreases |form|
  {
    if form == [] then None
    else if form[0].0 == name then Some(form[0].1)
    else
      var r := FirstValue(form[1..], name);
      assert forall i :: 1 <= i < |form| ==> form[i] == form[1..][i - 1];
      r
  }

  /** `request.form.getlist(name)`: every value sent under the name, in
      order. */
  function GetList(form: Form, name: string): (r: seq<string>)
    ensures |r| <= |form|
    ensures r == [] <==> FirstValue(form, name).None?
    ensures r != [] ==> r[0] == FirstValue(form, name).value
    ensures forall i :: 0 <= i < |r| ==> (name, r[i]) in form
    decreases |form|
  {
    if form == [] then []
    else
      var rest := GetList(form[1..], name);
      assert forall i :: 1 <= i < |form| ==> form[i] == form[1..][i - 1];
      if form[0].0 == name then [form[0].1] + rest else rest
  }

  /** `request.form.to_dict(flat=True)`: each name once, in the order it
      first appears, with its first value. */
  function FlatDict(form: Form): Members
    decreases |form|
  {
    if form == [] then []
    else
      var front := FlatDict(form[..|form| - 1]);
      var (name, value) := form[|form| - 1];
      if HasKey(front, name) then front else Put(front, name, JStr(value))
  }

  /** Looking a name up in the flat dict gives its first value. */
  lemma {:induction false} FlatDictGet(form: Form, name: string)
    ensures Get(FlatDict(form), name) ==
      if FirstValue(form, name).Some? then Some(JStr(FirstValue(form, name).value)) else None
    decreases |form|
  {
    if form != [] {
      var front := form[..|form| - 1];
      var (last, value) := form[|form| - 1];
      FlatDictGet(front, name);
      FirstValueSnoc(front, (last, value), name);
      assert form == front + [(last, value)];
      if !HasKey(FlatDict(front), last) {
        GetPut(FlatDict(front), last, JStr(value), name);
      } else if last == name {
        assert Get(FlatDict(front), name).Some?;
      }
    }
  }

  /** The first value of a form with one more field at its end. */
  lemma {:induction false} FirstValueSnoc(form: Form, field: (string, string), name: string)
    ensures FirstValue(form + [field], name) ==
      if FirstValue(form, name).Some? then FirstValue(form, name)
      else if field.0 == name then Some(field.1) else None
    decreases |form|
  {
    if form != [] {
      assert (form + [field])[1..] == form[1..] + [field];
      FirstValueSnoc(form[1..], field, name);
    }
  }

  /** The form forwarded: the flat dict; the repeated `ambiente` values
      joined with `,` when there is any; `id_administrador` set to the
      caller's identity. */
  function ForwardedForm(form: Form, identity: Json): Members {
    var flat := FlatDict(form);
    var ambientes := GetList(form, "ambiente");
    var withAmbiente := if ambientes != [] then Put(flat, "ambiente", JStr(Join(ambientes, ','))) else flat;
    Put(withAmbiente, "id_administrador", identity)
  }

  /** What the forwarded form holds: the identity as `id_administrador`
      whatever the client sent; the `,`-join of every `ambiente` value;
      for any other name, its first value. */
  lemma ForwardedFormFields(form: Form, identity: Json, name: string)
    ensures Get(ForwardedForm(form, identity), "id_administrador") == Some(identity)
    ensures Get(ForwardedForm(form, identity), "ambiente") ==
      if GetList(form, "ambiente") != [] then Some(JStr(Join(GetList(form, "ambiente"), ','))) else None
    ensures name != "id_administrador" && name != "ambiente" ==>
      Get(ForwardedForm(form, identity), name) ==
        if FirstValue(form, name).Some? then Some(JStr(FirstValue(form, name).value)) else None
  {
    var flat := FlatDict(form);
    var ambientes := GetList(form, "ambiente");
    var w := if ambientes != [] then Put(flat, "ambiente", JStr(Join(ambientes, ','))) else flat;
    GetPut(w, "id_administrador", identity, "ambiente");
    GetPut(w, "id_administrador", identity, name);
    FlatDictGet(form, name);
    FlatDictGet(form, "ambiente");
    if ambientes != [] {
      GetPut(flat, "ambiente", JStr(Join(ambientes, ',')), name);
    }
  }

  /** The repeated `ambiente` values of the admin's form reach the
      establishments service as one `,`-joined string, which it splits back
      into the same list when no value holds a comma and the list is not
      [""]. */
  lemma AmbienteReachesEstablecimientos(form: Form, identity: Json)
    requires GetList(form, "ambiente") != [] && GetList(form, "ambiente") != [""]
    requires forall i :: 0 <= i < |GetList(form, "ambiente")| ==> !ContainsChar(GetList(form, "ambiente")[i], ',')
    ensures NormalizeAmbiente(Get(ForwardedForm(form, identity), "ambiente")) == JArr(Strs(GetList(form, "ambiente")))
  {
    ForwardedFormFields(form, identity, "ambiente");
    AmbienteRoundTrip(GetList(form, "ambiente"));
  }

  /** The JSON branch's data: `request.get_json(silent=True) or {}` with
      `id_administrador` set; None when the body is a true value that is
      not an object, on which the assignment raises. */
  function ForwardedJson(body: Option<Json>, identity: Json): (r: Option<Members>)
    ensures r.None? <==> body.Some? && Truthy(body.value) && !body.value.JObj?
    ensures r.Some? ==> Get(r.value, "id_administrador") == Some(identity)
    ensures r.Some? && body.Some? && body.value.JObj? ==>
      forall k :: k != "id_administrador" ==> Get(r.value, k) == Get(body.value.members, k)
    ensures r.Some? && (body.None? || !Truthy(body.value)) ==> r.value == [("id_administrador", identity)]
  {
    if body.None? || !Truthy(body.value) then Some(Put([], "id_administrador", identity))
    else if body.value.JObj? then
      GetPut(body.value.members, "id_administrador", identity, "id_administrador");
      assert forall k :: k != "id_administrador" ==>
        Get(Put(body.value.members, "id_administrador", identity), k) == Get(body.value.members, k) by {
        forall k | k != "id_administrador"
          ensures Get(Put(body.value.members, "id_administrador", identity), k) == Get(body.value.members, k) {
          GetPut(body.value.members, "id_administrador", identity, k);
        }
      }
      Some(Put(body.value.members, "id_administrador", identity))
    else None
  }

  /** The request forwarded to the establishments service. */
  datatype Forward =
    | FormPost(form: Members, imagen: Option<string>)
    | JsonPost(data: Members)

  /** `"multipart/form-data" in content_type or "form-data" in content_type`. */
  predicate IsFormData(contentType: string) {
    IndexOfFrom(contentType, "multipart/form-data", 0) >= 0 || IndexOfFrom(contentType, "form-data", 0) >= 0
  }

  /** The file forwarded: the upload, only when its filename is non-empty. */
  function ForwardedImage(upload: Option<string>): (r: Option<string>)
    ensures r.Some? <==> upload.Some? && upload.value != ""
    ensures r.Some? ==> r == upload
  {
    if upload.Some? && upload.value != "" then upload else None
  }

  /** The error body for an exception outside `requests.HTTPError`. */
  function GeneralError(detalles: string): Json {
    JObj([("error", JStr("Error general en crear establecimiento")), ("detalles", JStr(detalles))])
  }

  /** `str(e)` of the `TypeError` raised by `data["id_administrador"] = ...`
      on a body that is not an object. */
  function ItemAssignmentError(body: Json): string {
    if body.JArr? then "list indices must be integers or slices, not str"
    else "'" + PyTypeName(body) + "' object does not support item assignment"
  }

  /** The reply to the forwarded answer: a 4xx or 5xx answer is wrapped
      with the backend's error (its JSON, or its text as `message`) and
      keeps the backend's status (see `HttpErrorStatus`); an answer that
      is not JSON is a 500; otherwise its JSON and status are passed on. */
  function ForwardReply(p: Attempt<Response>): (r: Reply)
    ensures p.Raised? ==> r == Reply(500, GeneralError(p.failure.text))
    ensures p.Returned? && RaisesForStatus(p.value) ==>
      r.status == p.value.status && r.body.JObj? && |r.body.members| == 2
      && r.body.members[0] == ("error", JStr("Error en la creación de establecimiento"))
      && r.body.members[1] == ("backend", if p.value.json.Parsed? then p.value.json.value
                                          else JObj([("message", JStr(p.value.text))]))
    ensures p.Returned? && !RaisesForStatus(p.value) ==>
      r == if p.value.json.Parsed? then Reply(p.value.status, p.value.json.value)
           else Reply(500, GeneralError(p.value.json.message))
  {
    if p.Raised? then Reply(500, GeneralError(p.failure.text))
    else if RaisesForStatus(p.value) then
      var errJson := if p.value.json.Parsed? then p.value.json.value else JObj([("message", JStr(p.value.text))]);
      Reply(HttpErrorStatus(p.value),
        JObj([("error", JStr("Error en la creación de establecimiento")), ("backend", errJson)]))
    else if p.value.json.Parsed? then Reply(p.value.status, p.value.json.value)
    else Reply(500, GeneralError(p.value.json.message))
  }

  /** `POST /administrador_establecimiento/nuevo_establecimiento`: a form
      (`IsFormData`) is flattened, its `ambiente` values joined, the
      identity set and the image attached only when it has a name; any
      other request forwards its JSON body with the identity set. `sent` is
      the request forwarded, if one was. */
  method CrearEstablecimiento(identity: Json, contentType: Option<string>, form: Form,
                              upload: Option<string>, body: Option<Json>,
                              post: Forward -> Attempt<Response>)
    returns (reply: Reply, sent: Option<Forward>)
    ensures var ct := if contentType.Some? then contentType.value else "";
      IsFormData(ct) ==> sent == Some(FormPost(ForwardedForm(form, identity), ForwardedImage(upload)))
    ensures var ct := if contentType.Some? then contentType.value else "";
      !IsFormData(ct) ==>
        sent == if ForwardedJson(body, identity).Some? then Some(JsonPost(ForwardedJson(body, identity).value)) else None
    ensures sent.None? ==> reply == Reply(500, GeneralError(ItemAssignmentError(body.value)))
    ensures sent.Some? ==> reply == ForwardReply(post(sent.value))
  {
    var ct := if contentType.Some? then contentType.value else "";
    if IsFormData(ct) {
      var flat := FlatDict(form);
      var ambienteList := GetList(form, "ambiente");
      if ambienteList != [] {
        flat := Put(flat, "ambiente", JStr(Join(ambienteList, ',')));
      }
      flat := Put(flat, "id_administrador", identity);
      var files := None;
      if upload.Some? && upload.value != "" {
        files := upload;
      }
      sent := Some(FormPost(flat, files));
    } else {
      var data: Members;
      if body.None? || !Truthy(body.value) {
        data := [];
      } else if body.value.JObj? {
        data := body.value.members;
      } else {
        return Reply(500, GeneralError(ItemAssignmentError(body.value))), None;
      }
      data := Put(data, "id_administrador", identity);
      sent := Some(JsonPost(data));
    }
    reply := ForwardReply(post(sent.value));
  }
}
