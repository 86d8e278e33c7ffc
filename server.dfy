/**
 * The captures API on the server: the list, get and create handlers and the
 * start-up seeding, over an in-memory store with the storage interface's
 * three operations (list all, get by id, create). A database failure is an
 * input to each store operation: `fault` makes it fail as a rejected query
 * would.
 */
module Server {
  import opened Wrappers
  import opened Text

  /** A stored capture. `kind` is the record's "type" column. */
  datatype Capture = Capture(
    id: int, title: string, kind: string, landscapeUrl: string, portraitUrl: string, createdAt: int)

  /** The fields a client submits to create a capture. */
  datatype InsertCapture = InsertCapture(title: string, kind: string, landscapeUrl: string, portraitUrl: string)

  datatype StoreError = DatabaseError

  /** A parsed JSON request body. */
  datatype Json =
    | JNull
    | JBool(b: bool)
    | JNum(n: int)
    | JStr(s: string)
    | JArr(items: seq<Json>)
    | JObj(fields: map<string, Json>)

  /** The first capture with the given id, if any. */
  function Find(captures: seq<Capture>, id: int): (r: Option<Capture>)
    ensures r.Some? ==> r.value in captures && r.value.id == id
    ensures r.None? <==> forall i :: 0 <= i < |captures| ==> captures[i].id != id
  {
    if captures == [] then None
    else if captures[0].id == id then Some(captures[0])
    else Find(captures[1..], id)
  }

  /** Ids strictly increase along the store, all from 1 and below `next`. */
  ghost predicate IdsIncreasing(captures: seq<Capture>, next: int)
  {
    && (forall i :: 0 <= i < |captures| ==> 1 <= captures[i].id < next)
    && (forall i, j :: 0 <= i < j < |captures| ==> captures[i].id < captures[j].id)
  }

  /** With strictly increasing ids, the record found for an id is the one record that has it. */
  lemma {:induction false} FindUnique(captures: seq<Capture>, next: int, id: int, k: int)
    requires IdsIncreasing(captures, next)
    requires 0 <= k < |captures| && captures[k].id == id
    ensures Find(captures, id) == Some(captures[k])
  {
    if k > 0 {
      assert captures[0].id < captures[k].id;
      var rest := captures[1..];
      assert IdsIncreasing(rest, next) by {
        forall i, j | 0 <= i < j < |rest| ensures rest[i].id < rest[j].id {
          assert rest[i] == captures[i + 1] && rest[j] == captures[j + 1];
        }
      }
      assert rest[k - 1] == captures[k];
      FindUnique(rest, next, id, k - 1);
    }
  }

  /** The store: captures in insertion order and the next serial id. */
  class Storage {
    var captures: seq<Capture>
    var nextId: int

    ghost predicate Valid()
      reads this
    {
      nextId >= 1 && IdsIncreasing(captures, nextId)
    }

    constructor ()
      ensures Valid() && captures == [] && nextId == 1
    {
      captures := [];
      nextId := 1;
    }

    /** getCaptures: every stored capture, in store order. */
    method GetCaptures(fault: bool) returns (r: Result<seq<Capture>, StoreError>)
      ensures fault ==> r == Err(DatabaseError)
      ensures !fault ==> r == Ok(captures)
    {
      if fault {
        return Err(DatabaseError);
      }
      r := Ok(captures);
    }

    /** getCapture: the capture with the id, or none. */
    method GetCapture(id: int, fault: bool) returns (r: Result<Option<Capture>, StoreError>)
      ensures fault ==> r == Err(DatabaseError)
      ensures !fault ==> r.Ok? && r.value == Find(captures, id)
    {
      if fault {
        return Err(DatabaseError);
      }
      r := Ok(Find(captures, id));
    }

    /** createCapture: a new record with the next id and creation time `now`, added at the end. */
    method CreateCapture(input: InsertCapture, now: int, fault: bool) returns (r: Result<Capture, StoreError>)
      requires Valid()
      modifies this
      ensures Valid()
      ensures fault ==> r == Err(DatabaseError) && unchanged(this)
      ensures !fault ==> && r == Ok(Capture(old(nextId), input.title, input.kind, input.landscapeUrl, input.portraitUrl, now))
                         && captures == old(captures) + [r.value]
                         && nextId == old(nextId) + 1
    {
      if fault {
        return Err(DatabaseError);
      }
      var c := Capture(nextId, input.title, input.kind, input.landscapeUrl, input.portraitUrl, now);
      captures := captures + [c];
      nextId := nextId + 1;
      r := Ok(c);
    }
  }

  // ---------------------------------------------------------------------
  // Validating a create request
  // ---------------------------------------------------------------------

  /** The submitted fields, in the order the schema declares them. */
  const RequiredFields: seq<string> := ["title", "type", "landscapeUrl", "portraitUrl"]

  /** A validation problem: its message and the path of the offending value. */
  datatype Issue = Issue(message: string, path: seq<string>)

  /** The name the validator gives a value's type in its messages. */
  function TypeName(v: Json): (r: string)
    ensures r == "string" <==> v.JStr?
    ensures r == "object" <==> v.JObj?
  {
    match v
    case JNull => "null"
    case JBool(_) => "boolean"
    case JNum(_) => "number"
    case JStr(_) => "string"
    case JArr(_) => "array"
    case JObj(_) => "object"
  }

  /** The field holds a string. */
  predicate FieldOk(fields: map<string, Json>, key: string)
  {
    key in fields && fields[key].JStr?
  }

  /** The problem with one required string field, if any. */
  function FieldIssue(fields: map<string, Json>, key: string): (r: Option<Issue>)
    ensures r.None? <==> FieldOk(fields, key)
    ensures r.Some? ==> r.value.path == [key] && (r.value.message == "Required" <==> key !in fields)
  {
    if key !in fields then Some(Issue("Required", [key]))
    else if fields[key].JStr? then None
    else Some(Issue("Expected string, received " + TypeName(fields[key]), [key]))
  }

  /** The problems with the given fields, in the order the fields are listed. */
  function FieldIssues(fields: map<string, Json>, keys: seq<string>): (issues: seq<Issue>)
    ensures issues == [] <==> forall j :: 0 <= j < |keys| ==> FieldOk(fields, keys[j])
    ensures |issues| <= |keys|
  {
    if keys == [] then []
    else
      var rest := FieldIssues(fields, keys[1..]);
      match FieldIssue(fields, keys[0])
      case None => rest
      case Some(issue) => [issue] + rest
  }

  /** The request body parsed against the create schema. */
  function Validate(body: Json): (r: Result<InsertCapture, seq<Issue>>)
    ensures !body.JObj? ==> r.Err? && |r.error| == 1 && r.error[0].path == []
    ensures r.Err? ==> |r.error| > 0
  {
    if !body.JObj? then Err([Issue("Expected object, received " + TypeName(body), [])])
    else
      var issues := FieldIssues(body.fields, RequiredFields);
      if issues != [] then Err(issues)
      else
        assert FieldOk(body.fields, RequiredFields[0]) && FieldOk(body.fields, RequiredFields[1]);
        assert FieldOk(body.fields, RequiredFields[2]) && FieldOk(body.fields, RequiredFields[3]);
        Ok(InsertCapture(
        body.fields["title"].s, body.fields["type"].s,
        body.fields["landscapeUrl"].s, body.fields["portraitUrl"].s))
  }

  /** Key k is the first of `keys` that is not a string field. */
  predicate IsFirstBadField(fields: map<string, Json>, keys: seq<string>, i: int)
  {
    && 0 <= i < |keys|
    && !FieldOk(fields, keys[i])
    && forall j :: 0 <= j < i ==> FieldOk(fields, keys[j])
  }

  /**
   * There are no problems exactly when every listed field holds a string;
   * otherwise the first problem is about the first field that does not, and
   * says "Required" when it is missing.
   */
  lemma {:induction false} FieldIssuesFirst(fields: map<string, Json>, keys: seq<string>)
    ensures var issues := FieldIssues(fields, keys);
      issues != [] ==>
        exists i :: && IsFirstBadField(fields, keys, i)
                    && issues[0].path == [keys[i]]
                    && (issues[0].message == "Required" <==> keys[i] !in fields)
  {
    if keys != [] {
      var rest := keys[1..];
      FieldIssuesFirst(fields, rest);
      if FieldOk(fields, keys[0]) {
        if FieldIssues(fields, rest) != [] {
          assert FieldIssues(fields, keys) == FieldIssues(fields, rest);
          var i :| IsFirstBadField(fields, rest, i) && FieldIssues(fields, rest)[0].path == [rest[i]]
            && (FieldIssues(fields, rest)[0].message == "Required" <==> rest[i] !in fields);
          assert keys[i + 1] == rest[i];
          forall j | 0 <= j < i + 1 ensures FieldOk(fields, keys[j]) {
            if j > 0 { assert keys[j] == rest[j - 1]; }
          }
          assert IsFirstBadField(fields, keys, i + 1);
        }
      } else {
        assert IsFirstBadField(fields, keys, 0);
        var msg := FieldIssues(fields, keys)[0].message;
        assert keys[0] in fields ==> |msg| > |"Required"|;
      }
    }
  }

  /**
   * A body is accepted exactly when it is an object whose four required
   * fields all hold strings, and then the accepted record carries those
   * strings; a rejected body always has at least one problem.
   */
  lemma ValidateAccepts(body: Json)
    ensures Validate(body).Ok? <==>
      && body.JObj?
      && FieldOk(body.fields, "title") && FieldOk(body.fields, "type")
      && FieldOk(body.fields, "landscapeUrl") && FieldOk(body.fields, "portraitUrl")
    ensures Validate(body).Ok? ==>
      Validate(body).value == InsertCapture(
        body.fields["title"].s, body.fields["type"].s,
        body.fields["landscapeUrl"].s, body.fields["portraitUrl"].s)
    ensures Validate(body).Err? ==> |Validate(body).error| > 0
  {
    if body.JObj? {
      var f := body.fields;
      assert RequiredFields[0] == "title" && RequiredFields[1] == "type";
      assert RequiredFields[2] == "landscapeUrl" && RequiredFields[3] == "portraitUrl";
      if FieldOk(f, "title") && FieldOk(f, "type") && FieldOk(f, "landscapeUrl") && FieldOk(f, "portraitUrl") {
        forall j | 0 <= j < |RequiredFields| ensures FieldOk(f, RequiredFields[j]) {
          assert j == 0 || j == 1 || j == 2 || j == 3;
        }
      }
    }
  }

  // ---------------------------------------------------------------------
  // Handlers
  // ---------------------------------------------------------------------

  datatype Body =
    | CaptureBody(capture: Capture)
    | ListBody(items: seq<Capture>)
    | MessageBody(message: string)
    | ValidationBody(message: string, field: string)

  datatype Response = Response(status: int, body: Body)

  /** What a handler does: answer, or let its failure escape without answering. */
  datatype Outcome = Responded(response: Response) | Rejected

  const NotFoundMessage: string := "Capture not found"
  const InternalErrorMessage: string := "Internal server error"

  /** The 400 answer for a rejected body: the first problem's message and its path joined with '.'. */
  function ValidationResponse(issues: seq<Issue>): (r: Response)
    requires issues != []
    ensures r.status == 400 && r.body.ValidationBody? && r.body.message == issues[0].message
    ensures issues[0].path == [] ==> r.body.field == ""
    ensures |issues[0].path| == 1 ==> r.body.field == issues[0].path[0]
  {
    Response(400, ValidationBody(issues[0].message, Join(issues[0].path, ".")))
  }

  /**
   * The 400 answer to an object body names, in `field`, the first required
   * field (in schema order) that is not a string, with message "Required"
   * exactly when that field is missing; a body that is not an object is
   * answered with an empty `field`.
   */
  lemma ValidationNamesFirstBadField(body: Json)
    requires Validate(body).Err?
    ensures var r := ValidationResponse(Validate(body).error);
      && r.status == 400
      && (!body.JObj? ==> r.body.field == "")
      && (body.JObj? ==>
            exists i :: && IsFirstBadField(body.fields, RequiredFields, i)
                        && r.body.field == RequiredFields[i]
                        && (r.body.message == "Required" <==> RequiredFields[i] !in body.fields))
  {
    if body.JObj? {
      FieldIssuesFirst(body.fields, RequiredFields);
    }
  }

  /** GET /api/captures: 200 with every stored capture in store order. */
  method ListHandler(store: Storage, fault: bool) returns (o: Outcome)
    ensures fault ==> o == Rejected
    ensures !fault ==> o == Responded(Response(200, ListBody(store.captures)))
  {
    var caps := store.GetCaptures(fault);
    if caps.Err? {
      return Rejected;
    }
    o := Responded(Response(200, ListBody(caps.value)));
  }

  /** GET /api/captures/:id: 200 with the capture, or 404 when no capture has the id. */
  method GetHandler(store: Storage, id: int, fault: bool) returns (o: Outcome)
    requires store.Valid()
    ensures fault ==> o == Rejected
    ensures !fault && (forall i :: 0 <= i < |store.captures| ==> store.captures[i].id != id) ==>
      o == Responded(Response(404, MessageBody(NotFoundMessage)))
    ensures !fault ==> forall k :: 0 <= k < |store.captures| && store.captures[k].id == id ==>
      o == Responded(Response(200, CaptureBody(store.captures[k])))
  {
    var cap := store.GetCapture(id, fault);
    if cap.Err? {
      return Rejected;
    }
    if cap.value.None? {
      return Responded(Response(404, MessageBody(NotFoundMessage)));
    }
    o := Responded(Response(200, CaptureBody(cap.value.value)));
    forall k | 0 <= k < |store.captures| && store.captures[k].id == id
      ensures o == Responded(Response(200, CaptureBody(store.captures[k])))
    {
      FindUnique(store.captures, store.nextId, id, k);
    }
  }

  /**
   * POST /api/captures: a valid body is stored and answered 201 with the new
   * record; an invalid one is answered 400 with its first problem and leaves
   * the store alone; a store failure is answered 500.
   */
  method CreateHandler(store: Storage, body: Json, now: int, fault: bool) returns (o: Outcome)
    requires store.Valid()
    modifies store
    ensures store.Valid()
    ensures Validate(body).Err? ==>
      unchanged(store) && o == Responded(ValidationResponse(Validate(body).error))
    ensures Validate(body).Ok? && fault ==>
      unchanged(store) && o == Responded(Response(500, MessageBody(InternalErrorMessage)))
    ensures Validate(body).Ok? && !fault ==>
      var input := Validate(body).value;
      var c := Capture(old(store.nextId), input.title, input.kind, input.landscapeUrl, input.portraitUrl, now);
      && store.captures == old(store.captures) + [c]
      && o == Responded(Response(201, CaptureBody(c)))
  {
    ValidateAccepts(body);
    var input := Validate(body);
    if input.Err? {
      return Responded(ValidationResponse(input.error));
    }
    var cap := store.CreateCapture(input.value, now, fault);
    if cap.Err? {
      return Responded(Response(500, MessageBody(InternalErrorMessage)));
    }
    o := Responded(Response(201, CaptureBody(cap.value)));
  }

  // ---------------------------------------------------------------------
  // Seeding
  // ---------------------------------------------------------------------

  const SeedVideo: InsertCapture := InsertCapture(
    "Test Video Capture", "video",
    "https://files.vidstack.io/sprite-fight/720p.mp4",
    "https://files.vidstack.io/sprite-fight/720p.mp4")

  const SeedPhoto: InsertCapture := InsertCapture(
    "Test Photo Capture", "photo",
    "https://images.unsplash.com/photo-1542385151-efd9000785a0?w=1600&q=80",
    "https://images.unsplash.com/photo-1542385151-efd9000785a0?w=900&q=80")

  /** The record a store with next id `id` makes of `input` at time `now`. */
  function Stored(input: InsertCapture, id: int, now: int): Capture
  {
    Capture(id, input.title, input.kind, input.landscapeUrl, input.portraitUrl, now)
  }

  /**
   * seedDatabase: only an empty store is seeded, with the video capture and
   * then the photo capture; a failure at any step is swallowed and stops the
   * seeding there. The three flags make the listing, the first insert and
   * the second insert fail.
   */
  method SeedDatabase(store: Storage, now: int, listFault: bool, videoFault: bool, photoFault: bool)
    requires store.Valid()
    modifies store
    ensures store.Valid()
    ensures listFault || old(store.captures) != [] ==> unchanged(store)
    ensures !listFault && old(store.captures) == [] ==>
      store.captures ==
        (if videoFault then []
         else [Stored(SeedVideo, old(store.nextId), now)]
              + (if photoFault then [] else [Stored(SeedPhoto, old(store.nextId) + 1, now)]))
  {
    var existing := store.GetCaptures(listFault);
    if existing.Err? {
      return;
    }
    if |existing.value| == 0 {
      var first := store.CreateCapture(SeedVideo, now, videoFault);
      if first.Err? {
        return;
      }
      var second := store.CreateCapture(SeedPhoto, now, photoFault);
    }
  }

  /**
   * On a fresh store, seeding twice leaves exactly the two seed captures,
   * video then photo, with ids 1 and 2: the second seeding changes nothing.
   */
  method SeedTwice(now: int) returns (stored: seq<Capture>)
    ensures |stored| == 2
    ensures stored[0].kind == "video" && stored[1].kind == "photo"
    ensures stored[0].id == 1 && stored[1].id == 2
  {
    var store := new Storage();
    SeedDatabase(store, now, false, false, false);
    SeedDatabase(store, now, false, false, false);
    stored := store.captures;
  }

  /** A body with title and both URLs but no type. */
  const PartialBody: Json := JObj(map["title" := JStr("t"), "landscapeUrl" := JStr("a"), "portraitUrl" := JStr("b")])

  /** The same body with type "video" added. */
  const FullBody: Json := JObj(PartialBody.fields["type" := JStr("video")])

  /** Without "type" the first problem is that "type" is required. */
  lemma PartialBodyRejected()
    ensures Validate(PartialBody).Err?
    ensures Validate(PartialBody).error[0] == Issue("Required", ["type"])
  {
    assert FieldOk(PartialBody.fields, "title");
    assert !FieldOk(PartialBody.fields, "type");
    assert FieldIssues(PartialBody.fields, RequiredFields)[0] == Issue("Required", ["type"]);
  }

  /** With all four strings the body is accepted as those strings. */
  lemma FullBodyAccepted()
    ensures Validate(FullBody) == Ok(InsertCapture("t", "video", "a", "b"))
  {
    ValidateAccepts(FullBody);
    assert forall j :: 0 <= j < |RequiredFields| ==> FieldOk(FullBody.fields, RequiredFields[j]) by {
      assert RequiredFields == ["title", "type", "landscapeUrl", "portraitUrl"];
    }
  }

  /**
   * A body missing "type" is answered 400 with field "type" and message
   * "Required", and a complete body is answered 201 with the next id.
   */
  method CreateScenario(now: int) returns (missingType: Outcome, complete: Outcome)
    ensures missingType == Responded(Response(400, ValidationBody("Required", "type")))
    ensures complete.Responded? && complete.response.status == 201
    ensures complete.response.body == CaptureBody(Capture(1, "t", "video", "a", "b", now))
  {
    var store := new Storage();
    PartialBodyRejected();
    missingType := CreateHandler(store, PartialBody, now, false);
    FullBodyAccepted();
    complete := CreateHandler(store, FullBody, now, false);
  }
}
