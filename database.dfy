/** The database handle of database.go: document, design-document and view operations.
    Each operation validates its arguments, issues its transport calls and maps the status
    codes it gets back to a result. A transport call is represented by the `Reply` triple it
    returns; JSON decoding is an opaque `Unmarshal` function. */
module Database {
  import opened Base
  import opened Errors
  import opened Reflect
  import opened Utils
  import opened Requests

  /** `Database`: the name of one remote database and the transport client used to reach it. */
  datatype Handle = Handle(httpClient: Client, dbName: string)

  /** `ViewDefinition`: a map function and an optional reduce function. */
  datatype ViewDefinition = ViewDefinition(mapFn: string, reduceFn: string)

  /** The fields of `designDocument` that the operations set. */
  datatype DesignDocument = DesignDocument(
    id: string, rev: string, language: string, views: map<string, ViewDefinition>, autoupdate: bool)

  /** `CreateDocResponseType`. */
  datatype CreateDocResponse = CreateDocResponse(id: string, ok: bool, rev: string)

  /** The Go value handed to the transport as a request body. */
  datatype Sent = NoBody | Doc(v: Value) | Design(d: DesignDocument) | QueryParams(params: map<string, Json>)

  /** One call of the transport: verb, endpoint (relative to the base URL) and body. */
  datatype Call = Call(verb: Verb, endpoint: string, body: Sent)

  /** The calls an operation issued, in order, and what it returned. */
  datatype Run<T> = Run(calls: seq<Call>, result: Result<T>)

  /** `json.Unmarshal`: what the pointee of a target of the given pointer type holds after
      the response body is decoded into it, given what it held before (the decoder merges into
      the existing value), or None when decoding fails. It is consulted for pointer targets
      only: decoding into anything else fails, as `json.Unmarshal` refuses a non-pointer. */
  type Unmarshal = (Bytes, GoType, Json) -> Option<Json>

  /** What a freshly declared variable holds: Go's zero value. */
  const Zero: Json := JNull

  const ViewDefinitionType: GoType :=
    Struct("ViewDefinition", [Field("Map", Basic(StringKind), "map", false),
                              Field("Reduce", Basic(StringKind), "reduce,omitempty", false)])

  const DesignDocumentType: GoType :=
    Struct("designDocument", [
      Field("ID", Basic(StringKind), "_id", false),
      Field("Rev", Basic(StringKind), "_rev,omitempty", false),
      Field("Language", Basic(StringKind), "language", false),
      Field("Options", Map(Basic(StringKind), Interface), "options,omitempty", false),
      Field("Filters", Map(Basic(StringKind), Basic(StringKind)), "filters,omitempty", false),
      Field("Lists", Map(Basic(StringKind), Basic(StringKind)), "lists,omitempty", false),
      Field("Rewrites", Interface, "rewrites,omitempty", false),
      Field("Shows", Map(Basic(StringKind), Basic(StringKind)), "shows,omitempty", false),
      Field("Updates", Map(Basic(StringKind), Basic(StringKind)), "updates,omitempty", false),
      Field("ValidateDocUpdate", Basic(StringKind), "validate_doc_update,omitempty", false),
      Field("Views", Map(Basic(StringKind), ViewDefinitionType), "views,omitempty", false),
      Field("Autoupdate", Basic(BoolKind), "autoupdate,omitempty", false)])

  const CreateDocResponseType: GoType :=
    Struct("CreateDocResponseType", [Field("ID", Basic(StringKind), "id", false),
                                     Field("Ok", Basic(BoolKind), "ok", false),
                                     Field("Rev", Basic(StringKind), "rev", false)])

  /** An argument passed as `any` whose pointee an operation may fill in: its dynamic type
      and, when that is a pointer type, what the pointee holds (as the JSON it decodes from). */
  class Target {
    const typ: GoType
    var content: Json

    constructor (typ: GoType, content: Json)
      ensures this.typ == typ && this.content == content
    {
      this.typ := typ;
      this.content := content;
    }
  }

  /** The `any` argument a possibly-nil target stands for. */
  function ArgOf(doc: Target?): Value
  {
    if doc == null then Nil else Value(doc.typ, {})
  }

  /** What the pointee of a possibly-nil target holds (nothing, for nil). */
  function Held(doc: Target?): Json
    reads doc
  {
    if doc == null then Zero else doc.content
  }

  function DocEndpoint(db: Handle, id: string): string
  {
    db.dbName + "/" + id
  }

  // ---------------------------------------------------------------------------
  // CreateDoc

  /** `CreateDoc`: POST the document to the database; 200 or 201 yields the decoded
      id/ok/rev triple. */
  function CreateDoc(db: Handle, doc: Value, reply: Reply, unmarshal: Unmarshal): (r: Run<CreateDocResponse>)
    ensures r.calls == [Call(POST, db.dbName, Doc(doc))]
    ensures r.result.Ok? <==> reply.err.None? && (reply.code == 200 || reply.code == 201)
                              && unmarshal(reply.body, Ptr(CreateDocResponseType), Zero).Some?
    ensures r.result.Ok? ==>
      var j := unmarshal(reply.body, Ptr(CreateDocResponseType), Zero).value;
      r.result.value == CreateDocResponse(StringMember(j, "id"), BoolMember(j, "ok"), StringMember(j, "rev"))
    ensures reply.err.Some? ==> r.result == Err(Wrapped(CreatingDoc, Transport(reply.err.value)))
    ensures reply.err.None? && reply.code != 200 && reply.code != 201
            ==> r.result == Err(Status(CreatingDoc, reply.code, reply.body))
    ensures reply.err.None? && (reply.code == 200 || reply.code == 201)
            && unmarshal(reply.body, Ptr(CreateDocResponseType), Zero).None?
            ==> r.result == Err(Wrapped(UnmarshallingCreateDocResponse, JsonFailure))
  {
    var calls := [Call(POST, db.dbName, Doc(doc))];
    if reply.err.Some? then Run(calls, Err(Wrapped(CreatingDoc, Transport(reply.err.value))))
    else if reply.code != 200 && reply.code != 201 then Run(calls, Err(Status(CreatingDoc, reply.code, reply.body)))
    else
      match unmarshal(reply.body, Ptr(CreateDocResponseType), Zero)
      case None => Run(calls, Err(Wrapped(UnmarshallingCreateDocResponse, JsonFailure)))
      case Some(j) => Run(calls, Ok(CreateDocResponse(StringMember(j, "id"), BoolMember(j, "ok"), StringMember(j, "rev"))))
  }

  // ---------------------------------------------------------------------------
  // GetDoc

  /** What `GetDoc` returns for the argument `arg`, whose pointee holds `held`: the pointee's
      new content, or the error. */
  function GetDocOutcome(arg: Value, held: Json, reply: Reply, unmarshal: Unmarshal): (r: Result<Json>)
    ensures r.Ok? <==> IsValidParam(arg) && reply.err.None? && reply.code == 200
                       && unmarshal(reply.body, arg.typ, held).Some?
    ensures r.Ok? ==> r.value == unmarshal(reply.body, arg.typ, held).value
    ensures !IsValidParam(arg) ==> r == Err(InvalidDocParam)
    ensures IsValidParam(arg) && reply.err.Some? ==> r == Err(Wrapped(GettingDoc, Transport(reply.err.value)))
    ensures IsValidParam(arg) && reply.err.None? && reply.code != 200 ==>
      r == Err(if reply.code in CodeToError then CodeToError[reply.code] else Status(GettingDoc, reply.code, reply.body))
    ensures IsValidParam(arg) && reply.err.None? && reply.code == 200 && unmarshal(reply.body, arg.typ, held).None? ==>
      r == Err(Wrapped(UnmarshallingDoc, JsonFailure))
    ensures r.Err? && Is(r.error, NotFound) <==> IsValidParam(arg) && reply.err.None? && reply.code == 400
  {
    if !IsValidParam(arg) then Err(InvalidDocParam)
    else if reply.err.Some? then Err(Wrapped(GettingDoc, Transport(reply.err.value)))
    else if reply.code != 200 then
      if reply.code in CodeToError then Err(CodeToError[reply.code])
      else Err(Status(GettingDoc, reply.code, reply.body))
    else
      match unmarshal(reply.body, arg.typ, held)
      case None => Err(Wrapped(UnmarshallingDoc, JsonFailure))
      case Some(j) => Ok(j)
  }

  /** Among the non-200 codes only 400 is mapped to the not-found sentinel, unwrapped; a 404
      is a generic status error, which `errors.Is` does not match against that sentinel. */
  lemma GetDocStatusTable(t: GoType, body: Bytes, unmarshal: Unmarshal)
    requires IsValidParam(Value(Ptr(t), {}))
    ensures GetDocOutcome(Value(Ptr(t), {}), Zero, Reply(400, body, None), unmarshal) == Err(NotFound)
    ensures GetDocOutcome(Value(Ptr(t), {}), Zero, Reply(404, body, None), unmarshal) == Err(Status(GettingDoc, 404, body))
    ensures !Is(Status(GettingDoc, 404, body), NotFound)
  {
  }

  /** `GetDoc`: GET `db/id` and decode the document into the caller's pointer. */
  method GetDoc(db: Handle, id: string, doc: Target?, reply: Reply, unmarshal: Unmarshal)
    returns (calls: seq<Call>, err: Option<Error>)
    modifies doc
    ensures calls == if IsValidParam(ArgOf(doc)) then [Call(GET, DocEndpoint(db, id), NoBody)] else []
    ensures err == ErrorOf(GetDocOutcome(ArgOf(doc), old(Held(doc)), reply, unmarshal))
    ensures doc != null ==>
      var r := GetDocOutcome(ArgOf(doc), old(doc.content), reply, unmarshal);
      doc.content == if r.Ok? then r.value else old(doc.content)
  {
    if !IsValidParam(ArgOf(doc)) {
      return [], Some(InvalidDocParam);
    }
    calls := [Call(GET, DocEndpoint(db, id), NoBody)];
    if reply.err.Some? {
      return calls, Some(Wrapped(GettingDoc, Transport(reply.err.value)));
    }
    if reply.code != 200 {
      if reply.code in CodeToError {
        return calls, Some(CodeToError[reply.code]);
      }
      return calls, Some(Status(GettingDoc, reply.code, reply.body));
    }
    var decoded := unmarshal(reply.body, doc.typ, doc.content);
    if decoded.None? {
      return calls, Some(Wrapped(UnmarshallingDoc, JsonFailure));
    }
    doc.content := decoded.value;
    err := None;
  }

  // ---------------------------------------------------------------------------
  // UpdateDoc

  /** `UpdateDoc`: check the document's identity, then PUT it to `db/id`; 200 or 201 succeed. */
  function UpdateDoc(db: Handle, id: string, doc: Value, reply: Reply): (r: Run<()>)
    requires CheckParameterDefined(doc)
    ensures CheckParameter(doc).Some? ==>
      r == Run([], Err(Wrapped(DocCheckFailed, CheckParameter(doc).value)))
    ensures CheckParameter(doc).None? ==> r.calls == [Call(PUT, DocEndpoint(db, id), Doc(doc))]
    ensures r.result.Ok? <==> CheckParameter(doc).None? && reply.err.None?
                              && (reply.code == 200 || reply.code == 201)
    ensures CheckParameter(doc).None? && reply.err.Some? ==>
      r.result == Err(Wrapped(UpdatingDoc, Transport(reply.err.value)))
    ensures CheckParameter(doc).None? && reply.err.None? && reply.code != 200 && reply.code != 201 ==>
      r.result == Err(Status(UpdatingDoc, reply.code, reply.body))
  {
    match CheckParameter(doc)
    case Some(e) => Run([], Err(Wrapped(DocCheckFailed, e)))
    case None =>
      var calls := [Call(PUT, DocEndpoint(db, id), Doc(doc))];
      if reply.err.Some? then Run(calls, Err(Wrapped(UpdatingDoc, Transport(reply.err.value))))
      else if reply.code != 200 && reply.code != 201 then Run(calls, Err(Status(UpdatingDoc, reply.code, reply.body)))
      else Run(calls, Ok(()))
  }

  /** A document missing `_rev` (or `_id`) is refused with that error, and nothing is sent;
      an error of UpdateDoc is one of these two exactly when the map lacks that key. */
  lemma {:induction false} UpdateDocMissingFields(db: Handle, id: string, doc: Value, reply: Reply)
    requires CheckParameterDefined(doc)
    ensures var r := UpdateDoc(db, id, doc, reply);
      && (r.result.Err? && Is(r.result.error, MissingID) <==> IsMapValue(doc) && "_id" !in doc.keys)
      && (r.result.Err? && Is(r.result.error, MissingRev) <==>
            IsMapValue(doc) && "_id" in doc.keys && "_rev" !in doc.keys)
      && (IsMapValue(doc) && "_rev" !in doc.keys ==> r.calls == [])
  {
    var r := UpdateDoc(db, id, doc, reply);
    var check := CheckParameter(doc);
    if check.Some? {
      assert r.result.error == Wrapped(DocCheckFailed, check.value);
      assert Is(r.result.error, MissingID) <==> check.value == MissingID;
      assert Is(r.result.error, MissingRev) <==> check.value == MissingRev;
    } else if r.result.Err? {
      assert r.result.error.Status? || r.result.error == Wrapped(UpdatingDoc, Transport(reply.err.value));
    }
  }

  // ---------------------------------------------------------------------------
  // DeleteDoc

  /** The type of the map `DeleteDoc` reads the document into. */
  const DeleteTargetType: GoType := Ptr(StringInterfaceMap)

  /** `DeleteDoc`: read the document to learn its `_rev`, then DELETE `db/id?rev=<rev>`;
      200 or 202 succeed. A failed read aborts before the delete. */
  method DeleteDoc(db: Handle, id: string, getReply: Reply, deleteReply: Reply, unmarshal: Unmarshal)
    returns (calls: seq<Call>, err: Option<Error>)
    ensures var read := GetDocOutcome(Value(DeleteTargetType, {}), Zero, getReply, unmarshal);
      && (read.Err? ==> calls == [Call(GET, DocEndpoint(db, id), NoBody)]
                        && err == Some(Wrapped(GettingDocToDelete, read.error)))
      && (read.Ok? ==> calls == [Call(GET, DocEndpoint(db, id), NoBody),
                                 Call(DELETE, DocEndpoint(db, id) + "?rev=" + StringMember(read.value, "_rev"), NoBody)])
      && (err == None <==> read.Ok? && deleteReply.err.None?
                           && (deleteReply.code == 200 || deleteReply.code == 202))
      && (read.Ok? && deleteReply.err.Some? ==> err == Some(Wrapped(DeletingDoc, Transport(deleteReply.err.value))))
      && (read.Ok? && deleteReply.err.None? && deleteReply.code != 200 && deleteReply.code != 202 ==>
            err == Some(Status(DeletingDoc, deleteReply.code, deleteReply.body)))
  {
    var doc := new Target(DeleteTargetType, Zero);
    var readCalls, readErr := GetDoc(db, id, doc, getReply, unmarshal);
    if readErr.Some? {
      return readCalls, Some(Wrapped(GettingDocToDelete, readErr.value));
    }
    var rev := StringMember(doc.content, "_rev");
    calls := readCalls + [Call(DELETE, DocEndpoint(db, id) + "?rev=" + rev, NoBody)];
    if deleteReply.err.Some? {
      return calls, Some(Wrapped(DeletingDoc, Transport(deleteReply.err.value)));
    }
    if deleteReply.code != 200 && deleteReply.code != 202 {
      return calls, Some(Status(DeletingDoc, deleteReply.code, deleteReply.body));
    }
    err := None;
  }

  // ---------------------------------------------------------------------------
  // CreateDesignDoc

  /** The design document `CreateDesignDoc` writes, with the revision it carries over. */
  function DesignBody(designDoc: string, views: map<string, ViewDefinition>, rev: string): DesignDocument
  {
    DesignDocument("_design/" + designDoc, rev, "javascript", views, true)
  }

  /** The revision `CreateDesignDoc` carries over: that of the document it read, or "" when
      the read failed (not found, or any other error, which leaves the zero document). */
  function CarriedRev(read: Result<Json>): string
  {
    if read.Ok? then StringMember(read.value, "_rev") else ""
  }

  /** `CreateDesignDoc`: read `_design/<name>` to learn its current revision, then PUT the new
      design document carrying it; 200 or 201 succeed. A failed read does not stop the write. */
  method CreateDesignDoc(db: Handle, designDoc: string, views: map<string, ViewDefinition>,
                         getReply: Reply, putReply: Reply, unmarshal: Unmarshal)
    returns (calls: seq<Call>, err: Option<Error>)
    ensures var read := GetDocOutcome(Value(Ptr(DesignDocumentType), {}), Zero, getReply, unmarshal);
      calls == [Call(GET, db.dbName + "/_design/" + designDoc, NoBody),
                Call(PUT, db.dbName + "/_design/" + designDoc, Design(DesignBody(designDoc, views, CarriedRev(read))))]
    ensures err == None <==> putReply.err.None? && (putReply.code == 200 || putReply.code == 201)
    ensures putReply.err.Some? ==> err == Some(Wrapped(CreatingDesignDoc, Transport(putReply.err.value)))
    ensures putReply.err.None? && putReply.code != 200 && putReply.code != 201
            ==> err == Some(Status(CreatingDesignDoc, putReply.code, putReply.body))
  {
    var docID := "_design/" + designDoc;
    var body := DesignDocument(docID, "", "javascript", views, true);
    var prevDoc := new Target(Ptr(DesignDocumentType), Zero);
    var readCalls, readErr := GetDoc(db, docID, prevDoc, getReply, unmarshal);
    if !(readErr.Some? && Is(readErr.value, NotFound)) {
      body := body.(rev := StringMember(prevDoc.content, "_rev"));
    }
    assert DocEndpoint(db, docID) == db.dbName + "/_design/" + designDoc;
    calls := readCalls + [Call(PUT, db.dbName + "/_design/" + designDoc, Design(body))];
    if putReply.err.Some? {
      return calls, Some(Wrapped(CreatingDesignDoc, Transport(putReply.err.value)));
    }
    if putReply.code != 200 && putReply.code != 201 {
      return calls, Some(Status(CreatingDesignDoc, putReply.code, putReply.body));
    }
    err := None;
  }

  // ---------------------------------------------------------------------------
  // View and the shape check of its result variable

  /** The field `name` exists and its `json` tag is exactly `tag`. */
  predicate Tagged(fields: seq<Field>, name: string, tag: string)
  {
    var f := FieldByName(fields, name);
    f.Some? && f.value.jsonTag == tag
  }

  /** The struct has a slice field `Rows` tagged "rows". */
  predicate HasRows(fields: seq<Field>)
  {
    var f := FieldByName(fields, "Rows");
    f.Some? && f.value.typ.Slice? && f.value.jsonTag == "rows"
  }

  /** `checkStructForJSONFields` does not panic: the argument's type has an element type
      (`reflect.Type.Elem`) that is a struct, and when that struct has a proper `Rows` field,
      the rows are structs. */
  predicate CheckStructDefined(t: GoType)
  {
    (t.Ptr? || t.Slice? || t.Map?) && t.elem.Struct?
    && (HasRows(t.elem.fields) ==> FieldByName(t.elem.fields, "Rows").value.typ.elem.Struct?)
  }

  /** The fields of a row, for an argument on which the check is defined. */
  function RowFields(t: GoType): seq<Field>
    requires CheckStructDefined(t) && HasRows(t.elem.fields)
  {
    FieldByName(t.elem.fields, "Rows").value.typ.elem.fields
  }

  /** `checkStructForJSONFields`: nil (None) when the result variable can hold view rows with
      their id, key and (if present) doc, or the first rule it breaks. */
  function CheckStructForJSONFields(t: GoType): (r: Option<Error>)
    requires CheckStructDefined(t)
    ensures r == Some(RowsFieldInvalid) <==> !HasRows(t.elem.fields)
    ensures r == Some(RowFieldsInvalid) <==>
      HasRows(t.elem.fields) && !(Tagged(RowFields(t), "ID", "id") && Tagged(RowFields(t), "Key", "key"))
    ensures r == Some(DocFieldInvalid) <==>
      HasRows(t.elem.fields) && Tagged(RowFields(t), "ID", "id") && Tagged(RowFields(t), "Key", "key")
      && FieldByName(RowFields(t), "Doc").Some? && !Tagged(RowFields(t), "Doc", "doc")
    ensures r == None <==>
      HasRows(t.elem.fields) && Tagged(RowFields(t), "ID", "id") && Tagged(RowFields(t), "Key", "key")
      && (FieldByName(RowFields(t), "Doc").Some? ==> Tagged(RowFields(t), "Doc", "doc"))
  {
    var rowsField := FieldByName(t.elem.fields, "Rows");
    if rowsField.None? || !rowsField.value.typ.Slice? || rowsField.value.jsonTag != "rows" then
      Some(RowsFieldInvalid)
    else
      var rowType := rowsField.value.typ.elem;
      var idField := FieldByName(rowType.fields, "ID");
      var keyField := FieldByName(rowType.fields, "Key");
      if idField.None? || keyField.None? || idField.value.jsonTag != "id" || keyField.value.jsonTag != "key" then
        Some(RowFieldsInvalid)
      else
        var docField := FieldByName(rowType.fields, "Doc");
        if docField.Some? && docField.value.jsonTag != "doc" then Some(DocFieldInvalid)
        else None
  }

  /** `View`: check the result variable's shape, POST the query parameters to
      `db/_design/<design>/_view/<view>`, and on 200 decode the response into the variable. */
  method View(db: Handle, design: string, view: string, params: map<string, Json>, resultVar: Target,
              reply: Reply, unmarshal: Unmarshal)
    returns (calls: seq<Call>, err: Option<Error>)
    requires CheckStructDefined(resultVar.typ)
    modifies resultVar
    ensures var shape := CheckStructForJSONFields(resultVar.typ);
      && (shape.Some? ==> calls == [] && err == Some(Wrapped(CheckingResultVar, shape.value)))
      && (shape.None? ==> calls == [Call(POST, db.dbName + "/_design/" + design + "/_view/" + view, QueryParams(params))])
      && (err == None <==> shape.None? && reply.err.None? && reply.code == 200
                           && resultVar.typ.Ptr? && unmarshal(reply.body, resultVar.typ, old(resultVar.content)).Some?)
      && (shape.None? && reply.err.Some? ==> err == Some(Wrapped(CreatingDesignDoc, Transport(reply.err.value))))
      && (shape.None? && reply.err.None? && reply.code != 200 ==> err == Some(Status(GettingView, reply.code, reply.body)))
      && (shape.None? && reply.err.None? && reply.code == 200
          && (!resultVar.typ.Ptr? || unmarshal(reply.body, resultVar.typ, old(resultVar.content)).None?) ==>
            err == Some(Wrapped(UnmarshallingResultVar, JsonFailure)))
    ensures resultVar.content == if err == None then unmarshal(reply.body, resultVar.typ, old(resultVar.content)).value
                                 else old(resultVar.content)
  {
    var shape := CheckStructForJSONFields(resultVar.typ);
    if shape.Some? {
      return [], Some(Wrapped(CheckingResultVar, shape.value));
    }
    calls := [Call(POST, db.dbName + "/_design/" + design + "/_view/" + view, QueryParams(params))];
    if reply.err.Some? {
      return calls, Some(Wrapped(CreatingDesignDoc, Transport(reply.err.value)));
    }
    if reply.code != 200 {
      return calls, Some(Status(GettingView, reply.code, reply.body));
    }
    var decoded := if resultVar.typ.Ptr? then unmarshal(reply.body, resultVar.typ, resultVar.content) else None;
    if decoded.None? {
      return calls, Some(Wrapped(UnmarshallingResultVar, JsonFailure));
    }
    resultVar.content := decoded.value;
    err := None;
  }

  /** A result type without `Rows` is refused. */
  lemma ResultShapeWithoutRows()
    ensures var t := Ptr(Struct("R", [Field("Total", Basic(IntKind), "total_rows", false)]));
      CheckStructDefined(t) && CheckStructForJSONFields(t) == Some(RowsFieldInvalid)
  {
  }

  /** Rows without an `ID` field are refused. */
  lemma ResultShapeWithoutID()
    ensures var t := Ptr(Struct("R", [Field("Rows", Slice(Struct("Row", [
                       Field("Key", Basic(StringKind), "key", false)])), "rows", false)]));
      CheckStructDefined(t) && CheckStructForJSONFields(t) == Some(RowFieldsInvalid)
  {
  }

  /** A `Doc` field with another tag is refused. */
  lemma ResultShapeMistaggedDoc()
    ensures var t := Ptr(Struct("R", [Field("Rows", Slice(Struct("Row", [
                       Field("ID", Basic(StringKind), "id", false),
                       Field("Key", Basic(StringKind), "key", false),
                       Field("Doc", Struct("", []), "dock", false)])), "rows", false)]));
      CheckStructDefined(t) && CheckStructForJSONFields(t) == Some(DocFieldInvalid)
  {
  }

  /** Conforming rows are accepted, with or without a `doc` field. */
  lemma ResultShapeConforming()
    ensures var t := Ptr(Struct("R", [Field("Rows", Slice(Struct("Row", [
                       Field("ID", Basic(StringKind), "id", false),
                       Field("Key", Basic(StringKind), "key", false),
                       Field("Doc", Struct("", []), "doc", false)])), "rows", false)]));
      CheckStructDefined(t) && CheckStructForJSONFields(t) == None
  {
  }

  // ---------------------------------------------------------------------------
  // DocExists

  /** `DocExists`: HEAD `db/id`; 200 and 304 mean it exists, 404 that it does not, and any
      other code is an error rather than a guess. */
  function DocExists(db: Handle, docID: string, reply: Reply): (r: Run<bool>)
    ensures r.calls == [Call(HEAD, DocEndpoint(db, docID), NoBody)]
    ensures r.result == Ok(true) <==> reply.err.None? && (reply.code == 200 || reply.code == 304)
    ensures r.result == Ok(false) <==> reply.err.None? && reply.code == 404
    ensures reply.err.Some? ==> r.result == Err(Wrapped(SendingHead, Transport(reply.err.value)))
    ensures reply.err.None? && reply.code != 200 && reply.code != 304 && reply.code != 404
            ==> r.result == Err(Status(UnexpectedStatus, reply.code, reply.body))
  {
    var calls := [Call(HEAD, DocEndpoint(db, docID), NoBody)];
    if reply.err.Some? then Run(calls, Err(Wrapped(SendingHead, Transport(reply.err.value))))
    else if reply.code == 200 then Run(calls, Ok(true))
    else if reply.code == 304 then Run(calls, Ok(true))
    else if reply.code == 404 then Run(calls, Ok(false))
    else Run(calls, Err(Status(UnexpectedStatus, reply.code, reply.body)))
  }
}
