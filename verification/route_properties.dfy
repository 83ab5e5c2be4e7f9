/**
 * What the complaint routes promise: the authorization guards and their
 * order, the error codes, that a failed request writes nothing, that a
 * successful one changes only the field it targets, and, over any sequence
 * of requests, that complaints are never removed, only created by POST /,
 * keep their owner, and always satisfy the schema.
 */
module RouteProperties {
  import opened Wrappers
  import opened ComplaintModel
  import opened ComplaintRoutes

  /** The fields no route ever reassigns once a complaint is stored. */
  predicate SameOrigin(a: Complaint, b: Complaint) {
    a.title == b.title && a.description == b.description && a.category == b.category
    && a.user == b.user && a.createdAt == b.createdAt
  }

  /** The ids requested by the POST / requests among `reqs`. */
  function CreatedIds(reqs: seq<Request>): set<Id>
    decreases |reqs|
  {
    if reqs == [] then {}
    else (if reqs[0].op.CreateOp? then {reqs[0].op.newId} else {}) + CreatedIds(reqs[1..])
  }

  // ---------------------------------------------------------------- GET /all

  lemma GetAllRequiresAdmin(docs: Collection, caller: Caller)
    ensures GetAll(docs, caller).docs == docs
    ensures GetAll(docs, caller).reply.code == FORBIDDEN <==> !IsAdmin(caller)
    ensures IsAdmin(caller) ==> GetAll(docs, caller).reply == Reply(OK, Listing(docs))
  {
  }

  // ------------------------------------------------------------------- GET /

  /** The caller sees exactly their own complaints; an admin sees them among all. */
  lemma GetMineIsOwnShare(docs: Collection, caller: Caller, other: Caller)
    ensures GetMine(docs, caller).docs == docs
    ensures GetMine(docs, caller).reply.code == OK
    ensures var mine := GetMine(docs, caller).reply.body.items;
      && (forall id :: id in mine ==> id in docs && mine[id] == docs[id] && mine[id].user == Some(caller.id))
      && (forall id :: id in docs && docs[id].user == Some(caller.id) ==> id in mine)
    ensures IsAdmin(other) ==>
      GetMine(docs, caller).reply.body.items.Items <= GetAll(docs, other).reply.body.items.Items
    ensures other.id != caller.id ==>
      GetMine(docs, caller).reply.body.items.Keys !! GetMine(docs, other).reply.body.items.Keys
  {
  }

  // ------------------------------------------------------------------ POST /

  lemma PostComplaintOutcome(docs: Collection, caller: Caller, id: Id, title: Option<string>,
                             description: Option<string>, category: Option<string>, now: nat)
    ensures var o := PostComplaint(docs, caller, id, title, description, category, now);
      && (o.reply.code == CREATED <==>
            id !in docs && Present(title) && Present(description) && category.Some? && category.value in CATEGORIES)
      && (o.reply.code != CREATED ==> o.reply.code == SERVER_ERROR && o.docs == docs)
    ensures var o := PostComplaint(docs, caller, id, title, description, category, now);
      o.reply.code == CREATED ==>
        && o.docs.Keys == docs.Keys + {id}
        && (forall k :: k in docs ==> o.docs[k] == docs[k])
        && o.reply.body == Record(id, o.docs[id])
        && o.docs[id].user == Some(caller.id)
        && o.docs[id].status == "Pending"
        && o.docs[id].feedback.None?
        && o.docs[id].title == title && o.docs[id].description == description
        && o.docs[id].category == category
        && o.docs[id].createdAt == now && o.docs[id].updatedAt == now
  {
  }

  // ----------------------------------------------------- PATCH /:id/status

  /** Not found is answered before the role is looked at; either way nothing is written. */
  lemma PatchStatusGuards(docs: Collection, caller: Caller, id: Id, status: string, now: nat)
    ensures id !in docs ==>
      PatchStatus(docs, caller, id, status, now) == Outcome(Reply(NOT_FOUND, Message(NOT_FOUND_MSG)), docs)
    ensures id in docs && !IsAdmin(caller) ==>
      PatchStatus(docs, caller, id, status, now) == Outcome(Reply(FORBIDDEN, Message(NOT_AUTHORIZED_MSG)), docs)
    ensures PatchStatus(docs, caller, id, status, now).reply.code == NOT_FOUND <==> id !in docs
  {
  }

  /** An admin's update changes that complaint's status and updatedAt and nothing else. */
  lemma PatchStatusEffect(docs: Collection, caller: Caller, id: Id, status: string, now: nat)
    requires id in docs && IsAdmin(caller)
    ensures var o := PatchStatus(docs, caller, id, status, now);
      && (o.reply.code == OK || o.reply.code == SERVER_ERROR)
      && (o.reply.code == SERVER_ERROR ==> o.docs == docs)
      && (ValidComplaint(docs[id]) ==> (o.reply.code == OK <==> status in STATUSES))
    ensures var o := PatchStatus(docs, caller, id, status, now);
      o.reply.code == OK ==>
        && o.docs.Keys == docs.Keys
        && (forall k :: k in docs && k != id ==> o.docs[k] == docs[k])
        && o.docs[id].status == status && o.docs[id].updatedAt == now
        && o.docs[id].(status := docs[id].status, updatedAt := docs[id].updatedAt) == docs[id]
        && o.reply.body == Record(id, o.docs[id])
  {
  }

  // --------------------------------------------------- POST /:id/feedback

  /** The three guards, in order; each failure writes nothing. */
  lemma PostFeedbackGuards(docs: Collection, caller: Caller, id: Id, rating: Option<int>,
                           comment: Option<string>, now: nat)
    ensures id !in docs ==>
      PostFeedback(docs, caller, id, rating, comment, now) == Outcome(Reply(NOT_FOUND, Message(NOT_FOUND_MSG)), docs)
    ensures id in docs && docs[id].user.Some? && docs[id].user.value != caller.id ==>
      PostFeedback(docs, caller, id, rating, comment, now) == Outcome(Reply(FORBIDDEN, Message(NOT_AUTHORIZED_MSG)), docs)
    ensures id in docs && docs[id].user == Some(caller.id) && docs[id].status != "Resolved" ==>
      PostFeedback(docs, caller, id, rating, comment, now) == Outcome(Reply(BAD_REQUEST, Message(NOT_RESOLVED_MSG)), docs)
    ensures id in docs && docs[id].user.None? ==>
      PostFeedback(docs, caller, id, rating, comment, now) == Outcome(Reply(SERVER_ERROR, Message(SERVER_ERROR_MSG)), docs)
  {
  }

  /** Past the guards, the feedback is replaced and nothing else changes. */
  lemma PostFeedbackEffect(docs: Collection, caller: Caller, id: Id, rating: Option<int>,
                           comment: Option<string>, now: nat)
    requires id in docs && docs[id].user == Some(caller.id) && docs[id].status == "Resolved"
    ensures var o := PostFeedback(docs, caller, id, rating, comment, now);
      && (o.reply.code == OK || o.reply.code == SERVER_ERROR)
      && (o.reply.code == SERVER_ERROR ==> o.docs == docs)
      && (ValidComplaint(docs[id]) ==>
            (o.reply.code == OK <==> rating.Some? && 1 <= rating.value <= 5 && Present(comment)))
    ensures var o := PostFeedback(docs, caller, id, rating, comment, now);
      o.reply.code == OK ==>
        && o.docs.Keys == docs.Keys
        && (forall k :: k in docs && k != id ==> o.docs[k] == docs[k])
        && o.docs[id].feedback == Some(Feedback(rating, comment, now))
        && o.docs[id].(feedback := docs[id].feedback) == docs[id]
        && o.reply.body == Record(id, o.docs[id])
  {
  }

  /**
   * Feedback is overwritten, not refused, on a second submission: once one
   * submission has succeeded, the next one by the owner succeeds exactly when
   * its own feedback is valid, and leaves the collection as if only it had
   * been made.
   */
  lemma PostFeedbackOverwrites(docs: Collection, caller: Caller, id: Id,
                                   rating1: Option<int>, comment1: Option<string>, now1: nat,
                                   rating2: Option<int>, comment2: Option<string>, now2: nat)
    requires PostFeedback(docs, caller, id, rating1, comment1, now1).reply.code == OK
    ensures var first := PostFeedback(docs, caller, id, rating1, comment1, now1).docs;
      var second := PostFeedback(first, caller, id, rating2, comment2, now2);
      && (second.reply.code == OK <==> ValidFeedback(NewFeedback(rating2, comment2, now2)))
      && (second.reply.code == OK ==> second.docs == PostFeedback(docs, caller, id, rating2, comment2, now2).docs)
      && (second.reply.code != OK ==> second.docs == first)
  {
  }

  // ------------------------------------------------------ one request at a time

  /** No request removes a complaint; only a successful POST / adds one. */
  lemma HandleKeys(docs: Collection, req: Request)
    ensures var after := Handle(docs, req).docs;
      || after.Keys == docs.Keys
      || (req.op.CreateOp? && req.op.newId !in docs && after.Keys == docs.Keys + {req.op.newId})
  {
  }

  /** Every write goes through validation, so a valid collection stays valid. */
  lemma HandlePreservesValid(docs: Collection, req: Request)
    requires AllValid(docs)
    ensures AllValid(Handle(docs, req).docs)
  {
  }

  /** Title, description, category, owner and creation time of a stored complaint never change. */
  lemma HandleKeepsOrigin(docs: Collection, req: Request)
    ensures var after := Handle(docs, req).docs;
      forall id :: id in docs ==> id in after && SameOrigin(after[id], docs[id])
  {
  }

  /** Only an admin's PATCH of that complaint changes its status. */
  lemma HandleStatusNeedsAdmin(docs: Collection, req: Request, id: Id)
    requires id in docs
    ensures var after := Handle(docs, req).docs;
      id in after && (after[id].status != docs[id].status ==>
        IsAdmin(req.caller) && req.op.UpdateStatusOp? && req.op.id == id && after[id].status == req.op.status)
  {
  }

  /** Only the owner's feedback on that complaint, while it is Resolved, changes its feedback. */
  lemma HandleFeedbackNeedsOwner(docs: Collection, req: Request, id: Id)
    requires id in docs
    ensures var after := Handle(docs, req).docs;
      id in after && (after[id].feedback != docs[id].feedback ==>
        && req.op.SubmitFeedbackOp? && req.op.id == id
        && docs[id].user == Some(req.caller.id) && docs[id].status == "Resolved")
  {
  }

  // ------------------------------------------------------ any sequence of requests

  /** The key set only grows, and only by ids that some POST / asked for. */
  lemma {:induction false} RunKeys(docs: Collection, reqs: seq<Request>)
    ensures docs.Keys <= Run(docs, reqs).Keys <= docs.Keys + CreatedIds(reqs)
    decreases |reqs|
  {
    if reqs != [] {
      var next := Handle(docs, reqs[0]).docs;
      HandleKeys(docs, reqs[0]);
      RunKeys(next, reqs[1..]);
    }
  }

  /** The number of complaints grows by at most the number of POST / requests. */
  lemma {:induction false} RunCount(docs: Collection, reqs: seq<Request>)
    ensures |docs| <= |Run(docs, reqs)| <= |docs| + |CreatedIds(reqs)|
  {
    RunKeys(docs, reqs);
    var after := Run(docs, reqs);
    assert after.Keys <= docs.Keys + CreatedIds(reqs);
    SubsetCard(docs.Keys, after.Keys);
    SubsetCard(after.Keys, docs.Keys + CreatedIds(reqs));
    UnionCard(docs.Keys, CreatedIds(reqs));
    assert |after| == |after.Keys|;
    assert |docs| == |docs.Keys|;
  }

  lemma {:induction false} RunPreservesValid(docs: Collection, reqs: seq<Request>)
    requires AllValid(docs)
    ensures AllValid(Run(docs, reqs))
    decreases |reqs|
  {
    if reqs != [] {
      HandlePreservesValid(docs, reqs[0]);
      RunPreservesValid(Handle(docs, reqs[0]).docs, reqs[1..]);
    }
  }

  lemma {:induction false} RunKeepsOrigin(docs: Collection, reqs: seq<Request>)
    ensures var after := Run(docs, reqs);
      forall id :: id in docs ==> id in after && SameOrigin(after[id], docs[id])
    decreases |reqs|
  {
    if reqs != [] {
      var next := Handle(docs, reqs[0]).docs;
      HandleKeepsOrigin(docs, reqs[0]);
      RunKeepsOrigin(next, reqs[1..]);
    }
  }

  /** Without an admin among the callers, no stored complaint's status changes. */
  lemma {:induction false} RunStatusNeedsAdmin(docs: Collection, reqs: seq<Request>)
    requires forall i :: 0 <= i < |reqs| ==> !IsAdmin(reqs[i].caller)
    ensures var after := Run(docs, reqs);
      forall id :: id in docs ==> id in after && after[id].status == docs[id].status
    decreases |reqs|
  {
    if reqs != [] {
      var next := Handle(docs, reqs[0]).docs;
      forall id | id in docs
        ensures id in next && next[id].status == docs[id].status
      {
        HandleStatusNeedsAdmin(docs, reqs[0], id);
      }
      RunStatusNeedsAdmin(next, reqs[1..]);
    }
  }

  /** Requests from anyone but the owner never change the feedback on the owner's complaints. */
  lemma {:induction false} RunFeedbackNeedsOwner(docs: Collection, reqs: seq<Request>, owner: UserId)
    requires forall i :: 0 <= i < |reqs| ==> reqs[i].caller.id != owner
    ensures var after := Run(docs, reqs);
      forall id :: id in docs && docs[id].user == Some(owner) ==>
        id in after && after[id].feedback == docs[id].feedback
    decreases |reqs|
  {
    if reqs != [] {
      var next := Handle(docs, reqs[0]).docs;
      forall id | id in docs && docs[id].user == Some(owner)
        ensures id in next && next[id].feedback == docs[id].feedback && next[id].user == Some(owner)
      {
        HandleFeedbackNeedsOwner(docs, reqs[0], id);
        HandleKeepsOrigin(docs, reqs[0]);
      }
      RunFeedbackNeedsOwner(next, reqs[1..], owner);
    }
  }

  // ------------------------------------------------------ worked examples

  /** Create, resolve, rate: the walk-through of one complaint's lifecycle. */
  lemma PotholeLifecycle(docs: Collection, citizen: Caller, admin: Caller, id: Id, t0: nat, t1: nat, t2: nat)
    requires id !in docs && IsAdmin(admin)
    ensures var created := PostComplaint(docs, citizen, id, Some("Pothole"), Some("Deep hole on Main St"),
                                         Some("Infrastructure"), t0);
      var resolved := PatchStatus(created.docs, admin, id, "Resolved", t1);
      var rated := PostFeedback(resolved.docs, citizen, id, Some(5), Some("Fixed fast"), t2);
      && created.reply.code == CREATED && created.docs[id].status == "Pending"
      && resolved.reply.code == OK && resolved.docs[id].status == "Resolved"
      && rated.reply.code == OK
      && rated.docs[id].feedback == Some(Feedback(Some(5), Some("Fixed fast"), t2))
  {
  }

  /**
   * Feedback is only attached while a complaint is Resolved, but nothing ties
   * them afterwards: an admin may set the status back, and the feedback stays.
   */
  lemma FeedbackSurvivesReopen(docs: Collection, owner: Caller, admin: Caller, id: Id,
                               rating: Option<int>, comment: Option<string>, t1: nat, t2: nat)
    requires IsAdmin(admin)
    requires PostFeedback(docs, owner, id, rating, comment, t1).reply.code == OK
    ensures var rated := PostFeedback(docs, owner, id, rating, comment, t1).docs;
      var reopened := PatchStatus(rated, admin, id, "Pending", t2);
      && reopened.reply.code == OK
      && reopened.docs[id].status == "Pending"
      && reopened.docs[id].feedback == Some(Feedback(rating, comment, t1))
  {
  }

  // ------------------------------------------------------ set helpers

  lemma SubsetCard<T>(a: set<T>, b: set<T>)
    requires a <= b
    ensures |a| <= |b|
  {
    assert b == a + (b - a);
  }

  lemma UnionCard<T>(a: set<T>, b: set<T>)
    ensures |a + b| <= |a| + |b|
  {
  }
}
