/**
 * The complaint routes: five handlers over the complaint collection, each
 * answering with an HTTP status code and a body.
 *
 * Each handler is first written as a function from the collection before the
 * request to an `Outcome` (the reply and the collection after it); the class
 * `ComplaintStore` then performs the same handlers step by step on a mutable
 * collection and is proved to agree with those functions.  A `save()` is
 * "validate against the schema, then persist": a document that fails
 * validation (or an insert whose id is taken) throws, the handler's `catch`
 * answers 500, and nothing is written.
 */
module ComplaintRoutes {
  import opened Wrappers
  import opened ComplaintModel

  /** Abstract document ids. */
  type Id = nat

  /** The complaint collection. */
  type Collection = map<Id, Complaint>

  /** The authenticated caller, as the authentication middleware resolves it. */
  datatype Caller = Caller(id: UserId, role: string)

  predicate IsAdmin(caller: Caller) {
    caller.role == "admin"
  }

  const OK: int := 200
  const CREATED: int := 201
  const BAD_REQUEST: int := 400
  const FORBIDDEN: int := 403
  const NOT_FOUND: int := 404
  const SERVER_ERROR: int := 500

  const NOT_AUTHORIZED_MSG: string := "Not authorized"
  const NOT_FOUND_MSG: string := "Complaint not found"
  const NOT_RESOLVED_MSG: string := "Can only provide feedback for resolved complaints"
  const SERVER_ERROR_MSG: string := "Server error"

  /** A JSON body: an error message, a list of complaints, or one complaint. */
  datatype Body = Message(text: string) | Listing(items: Collection) | Record(id: Id, item: Complaint)

  datatype Reply = Reply(code: int, body: Body)

  /** A handler's reply together with the collection it leaves behind. */
  datatype Outcome = Outcome(reply: Reply, docs: Collection)

  /** An error reply; the collection is left as it was. */
  function Refuse(docs: Collection, code: int, text: string): Outcome {
    Outcome(Reply(code, Message(text)), docs)
  }

  /** The `catch` branch: a generic 500 and nothing written. */
  function Crash(docs: Collection): Outcome {
    Refuse(docs, SERVER_ERROR, SERVER_ERROR_MSG)
  }

  /** `Complaint.find({ user })`: the complaints owned by `user`, and only those. */
  function Owned(docs: Collection, user: UserId): (mine: Collection)
    ensures forall id :: id in mine <==> id in docs && docs[id].user == Some(user)
    ensures forall id :: id in mine ==> mine[id] == docs[id]
  {
    map id | id in docs && docs[id].user == Some(user) :: docs[id]
  }

  /** `save()` of a document already in the collection, then the saved document as the reply. */
  function Save(docs: Collection, id: Id, c: Complaint): Outcome {
    if ValidComplaint(c) then Outcome(Reply(OK, Record(id, c)), docs[id := c])
    else Crash(docs)
  }

  /** GET /all: every complaint, for an admin only. */
  function GetAll(docs: Collection, caller: Caller): Outcome {
    if !IsAdmin(caller) then Refuse(docs, FORBIDDEN, NOT_AUTHORIZED_MSG)
    else Outcome(Reply(OK, Listing(docs)), docs)
  }

  /** GET /: the caller's own complaints. */
  function GetMine(docs: Collection, caller: Caller): Outcome {
    Outcome(Reply(OK, Listing(Owned(docs, caller.id))), docs)
  }

  /**
   * POST /: construct a complaint owned by the caller and insert it under the
   * freshly generated id `id`; an invalid document or a taken id fails with 500.
   */
  function PostComplaint(docs: Collection, caller: Caller, id: Id, title: Option<string>,
                         description: Option<string>, category: Option<string>, now: nat): Outcome
  {
    var c := NewComplaint(title, description, category, caller.id, now);
    if ValidComplaint(c) && id !in docs then Outcome(Reply(CREATED, Record(id, c)), docs[id := c])
    else Crash(docs)
  }

  /** PATCH /:id/status: the existence check comes before the role check. */
  function PatchStatus(docs: Collection, caller: Caller, id: Id, status: string, now: nat): Outcome {
    if id !in docs then Refuse(docs, NOT_FOUND, NOT_FOUND_MSG)
    else if !IsAdmin(caller) then Refuse(docs, FORBIDDEN, NOT_AUTHORIZED_MSG)
    else Save(docs, id, docs[id].(status := status, updatedAt := now))
  }

  /**
   * POST /:id/feedback: exists, then owned by the caller, then Resolved; the
   * feedback is then replaced.  A document without an owner makes the
   * ownership comparison throw, hence 500.
   */
  function PostFeedback(docs: Collection, caller: Caller, id: Id, rating: Option<int>,
                        comment: Option<string>, now: nat): Outcome
  {
    if id !in docs then Refuse(docs, NOT_FOUND, NOT_FOUND_MSG)
    else if docs[id].user.None? then Crash(docs)
    else if docs[id].user.value != caller.id then Refuse(docs, FORBIDDEN, NOT_AUTHORIZED_MSG)
    else if docs[id].status != RESOLVED then Refuse(docs, BAD_REQUEST, NOT_RESOLVED_MSG)
    else Save(docs, id, docs[id].(feedback := Some(NewFeedback(rating, comment, now))))
  }

  /** A request's route and the parts of its URL and JSON body the handler reads. */
  datatype Op =
    | ListAllOp
    | ListMineOp
    | CreateOp(newId: Id, title: Option<string>, description: Option<string>, category: Option<string>)
    | UpdateStatusOp(id: Id, status: string)
    | SubmitFeedbackOp(id: Id, rating: Option<int>, comment: Option<string>)

  /** One request: who sends it, the time it is handled, and what it asks. */
  datatype Request = Request(caller: Caller, now: nat, op: Op)

  /** The router: one request handled as one atomic step. */
  function Handle(docs: Collection, req: Request): Outcome {
    match req.op
    case ListAllOp => GetAll(docs, req.caller)
    case ListMineOp => GetMine(docs, req.caller)
    case CreateOp(newId, title, description, category) =>
      PostComplaint(docs, req.caller, newId, title, description, category, req.now)
    case UpdateStatusOp(id, status) => PatchStatus(docs, req.caller, id, status, req.now)
    case SubmitFeedbackOp(id, rating, comment) => PostFeedback(docs, req.caller, id, rating, comment, req.now)
  }

  /** The collection after handling `reqs` one after the other. */
  function Run(docs: Collection, reqs: seq<Request>): Collection
    decreases |reqs|
  {
    if reqs == [] then docs else Run(Handle(docs, reqs[0]).docs, reqs[1..])
  }

  /** Every document in the collection passes schema validation. */
  predicate AllValid(docs: Collection) {
    forall id :: id in docs ==> ValidComplaint(docs[id])
  }

  /**
   * The complaint collection as a mutable store.  `nextId` stands for the
   * ObjectId generator: every id in use is below it.
   */
  class ComplaintStore {
    var docs: Collection
    var nextId: Id

    ghost predicate Valid()
      reads this
    {
      AllValid(docs) && forall id :: id in docs ==> id < nextId
    }

    constructor ()
      ensures Valid()
      ensures docs == map[] && nextId == 0
    {
      docs := map[];
      nextId := 0;
    }

    /** Validate `c` and, if it passes, write it under `id`; a new document may not reuse an id. */
    method Persist(id: Id, c: Complaint, isNew: bool) returns (saved: bool)
      modifies this
      ensures saved == (ValidComplaint(c) && !(isNew && id in old(docs)))
      ensures docs == (if saved then old(docs)[id := c] else old(docs))
      ensures nextId == old(nextId)
    {
      saved := ValidComplaint(c) && !(isNew && id in docs);
      if saved {
        docs := docs[id := c];
      }
    }

    method ListAll(caller: Caller) returns (reply: Reply)
      ensures reply == GetAll(docs, caller).reply
    {
      if !IsAdmin(caller) {
        return Reply(FORBIDDEN, Message(NOT_AUTHORIZED_MSG));
      }
      reply := Reply(OK, Listing(docs));
    }

    method ListMine(caller: Caller) returns (reply: Reply)
      ensures reply.code == OK && reply.body.Listing?
      ensures forall id :: id in reply.body.items <==> id in docs && docs[id].user == Some(caller.id)
      ensures forall id :: id in reply.body.items ==> reply.body.items[id] == docs[id]
    {
      var mine := map id | id in docs && docs[id].user == Some(caller.id) :: docs[id];
      reply := Reply(OK, Listing(mine));
    }

    method Create(caller: Caller, title: Option<string>, description: Option<string>,
                  category: Option<string>, now: nat) returns (id: Id, reply: Reply)
      requires Valid()
      modifies this
      ensures Valid()
      ensures id == old(nextId) && nextId == old(nextId) + 1
      ensures Outcome(reply, docs) == PostComplaint(old(docs), caller, id, title, description, category, now)
      ensures reply.code == CREATED <==> ValidComplaint(NewComplaint(title, description, category, caller.id, now))
    {
      var complaint := NewComplaint(title, description, category, caller.id, now);
      id := nextId;
      nextId := nextId + 1;
      var saved := Persist(id, complaint, true);
      if saved {
        reply := Reply(CREATED, Record(id, complaint));
      } else {
        reply := Reply(SERVER_ERROR, Message(SERVER_ERROR_MSG));
      }
    }

    method UpdateStatus(caller: Caller, id: Id, status: string, now: nat) returns (reply: Reply)
      requires Valid()
      modifies this
      ensures Valid()
      ensures nextId == old(nextId)
      ensures Outcome(reply, docs) == PatchStatus(old(docs), caller, id, status, now)
    {
      if id !in docs {
        return Reply(NOT_FOUND, Message(NOT_FOUND_MSG));
      }
      if !IsAdmin(caller) {
        return Reply(FORBIDDEN, Message(NOT_AUTHORIZED_MSG));
      }
      var complaint := docs[id];
      complaint := complaint.(status := status);
      complaint := complaint.(updatedAt := now);
      var saved := Persist(id, complaint, false);
      if !saved {
        return Reply(SERVER_ERROR, Message(SERVER_ERROR_MSG));
      }
      reply := Reply(OK, Record(id, complaint));
    }

    method SubmitFeedback(caller: Caller, id: Id, rating: Option<int>, comment: Option<string>,
                          now: nat) returns (reply: Reply)
      requires Valid()
      modifies this
      ensures Valid()
      ensures nextId == old(nextId)
      ensures Outcome(reply, docs) == PostFeedback(old(docs), caller, id, rating, comment, now)
    {
      if id !in docs {
        return Reply(NOT_FOUND, Message(NOT_FOUND_MSG));
      }
      var complaint := docs[id];
      if complaint.user.None? {
        return Reply(SERVER_ERROR, Message(SERVER_ERROR_MSG));
      }
      if complaint.user.value != caller.id {
        return Reply(FORBIDDEN, Message(NOT_AUTHORIZED_MSG));
      }
      if complaint.status != RESOLVED {
        return Reply(BAD_REQUEST, Message(NOT_RESOLVED_MSG));
      }
      complaint := complaint.(feedback := Some(NewFeedback(rating, comment, now)));
      var saved := Persist(id, complaint, false);
      if !saved {
        return Reply(SERVER_ERROR, Message(SERVER_ERROR_MSG));
      }
      reply := Reply(OK, Record(id, complaint));
    }
  }
}
