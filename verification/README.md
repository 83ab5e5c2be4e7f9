# Complaint lifecycle of the citizen complaint tracker

The server of this complaint tracker keeps one collection of complaints and
exposes five routes over it. Citizens file complaints and list their own.
Administrators list every complaint and set statuses. The owner of a
Resolved complaint may leave a star rating with a comment. This project
models that collection and its five handlers in Dafny, together with the
Mongoose schema that every stored complaint must satisfy, and proves what
the handlers promise.

- `ComplaintModel` (`complaint_model.dfy`) models `server/models/Complaint.js`.
  It defines the feedback and complaint records, the defaults applied when a
  document is built, and the validation run by `save()` (`ValidFeedback`,
  `ValidComplaint`).
- `ComplaintRoutes` (`complaint_routes.dfy`) models `server/routes/complaints.js`.
  Each handler is a function from the collection to an `Outcome`: the HTTP
  code, the body, and the collection afterwards (`GetAll`, `GetMine`,
  `PostComplaint`, `PatchStatus`, `PostFeedback`). `Handle` dispatches one
  request and `Run` applies a sequence of them. The class `ComplaintStore`
  holds the collection as a mutable `map` field. Its methods load a
  document, assign its fields, and save it, as the handlers do. Each method
  is proved to give the same reply and the same new collection as the
  matching function.
- `RouteProperties` (`route_properties.dfy`) holds the lemmas. They cover
  guard order, error codes, "nothing written on error", and "only the
  targeted field changes". Over any sequence of requests they also cover
  validity, key growth, and who may change a status or a feedback.

Saving is modelled as "validate against the schema, then persist". A
document that fails validation, or an insert under an id that is already
taken, throws. The handler's `catch` then answers 500 and nothing is
written. This relies on two Mongoose behaviours that the two files do not
show: validation on save, and a required String being present and
non-empty. Wall-clock time (`Date.now()`) is a `now: nat` parameter. The
caller's id and role come from the authentication middleware and are
taken as trusted inputs.

Where the documented design and the code differ, the model follows the code:

- A create request missing a required field or carrying an unknown category
  is answered 500 (the failed save), not 400.
- `PATCH /:id/status` does not check the status itself. An unknown status
  fails schema validation on save and is answered 500, with nothing written.
- Feedback can only be attached while a complaint is Resolved, but that is
  not an invariant of stored complaints. An admin may reopen a complaint
  afterwards and the feedback stays (`FeedbackSurvivesReopen`).

## Model

| member | source | states |
|---|---|---|
| ComplaintModel.ValidComplaintFields | server/models/Complaint.js:20-53 | a valid complaint has non-empty title and description, a category among the four, a status among the four, an owner, and any feedback has a rating in 1..5 and a non-empty comment |
| ComplaintModel.InvalidComplaints | server/models/Complaint.js:20-43 | a complaint missing title, description, category or owner, or with a category or status outside its enum, fails validation |
| ComplaintModel.NewComplaintDefaults | server/models/Complaint.js:34-52 | a new complaint gets status Pending, no feedback, createdAt and updatedAt equal to the creation time, and keeps the supplied fields and owner |
| ComplaintModel.NewComplaintValid | server/models/Complaint.js:20-43 | a new complaint validates iff title and description are non-empty and the category is one of the four |
| ComplaintModel.NewFeedbackValid | server/models/Complaint.js:3-17 | new feedback is stamped with the current time and validates iff the rating is in 1..5 and the comment is non-empty |
| ComplaintRoutes.Owned | server/routes/complaints.js:23 | the filter keeps exactly the complaints whose owner is the given user, with their stored values |
| ComplaintRoutes.ComplaintStore.Persist | server/routes/complaints.js:42-46 | save writes the document iff it validates and, for a new document, its id is unused; otherwise the collection is unchanged |
| ComplaintRoutes.ComplaintStore.ListAll | server/routes/complaints.js:8-18 | the reply of the admin listing is that of `GetAll` on the current collection |
| ComplaintRoutes.ComplaintStore.ListMine | server/routes/complaints.js:21-28 | answers 200 with exactly the caller's complaints and no others |
| ComplaintRoutes.ComplaintStore.Create | server/routes/complaints.js:31-47 | takes a fresh id, keeps the store valid, matches `PostComplaint`, and answers 201 iff the new document validates |
| ComplaintRoutes.ComplaintStore.UpdateStatus | server/routes/complaints.js:50-71 | keeps the store valid and gives the reply and new collection of `PatchStatus` |
| ComplaintRoutes.ComplaintStore.SubmitFeedback | server/routes/complaints.js:74-99 | keeps the store valid and gives the reply and new collection of `PostFeedback` |
| RouteProperties.GetAllRequiresAdmin | server/routes/complaints.js:10-14 | 403 iff the caller is not an admin; an admin gets 200 with every complaint; nothing is written |
| RouteProperties.GetMineIsOwnShare | server/routes/complaints.js:23-24 | the listing holds exactly the caller's complaints; it is part of the admin listing; two users' listings are disjoint |
| RouteProperties.PostComplaintOutcome | server/routes/complaints.js:33-46 | 201 iff the id is unused and the three fields validate; the new complaint is owned by the caller, Pending, without feedback, stamped now, and nothing else changes; otherwise 500 and nothing is written |
| RouteProperties.PatchStatusGuards | server/routes/complaints.js:53-61 | an unknown id gives 404 even to a non-admin; a non-admin on an existing id gets 403; neither writes anything |
| RouteProperties.PatchStatusEffect | server/routes/complaints.js:63-70 | an admin's update changes only that complaint's status and updatedAt (set to now); on a valid complaint it succeeds iff the status is in the enum, and otherwise it answers 500 with nothing written |
| RouteProperties.PostFeedbackGuards | server/routes/complaints.js:79-91 | 404 for an unknown id, then 403 for a non-owner, then 400 unless Resolved (500 if the document has no owner); none writes anything |
| RouteProperties.PostFeedbackEffect | server/routes/complaints.js:93-98 | past the guards the feedback becomes {rating, comment, now} and no other field or complaint changes; on a valid complaint it succeeds iff rating and comment validate |
| RouteProperties.PostFeedbackOverwrites | server/routes/complaints.js:93-95 | after one successful submission a second one succeeds iff its feedback is valid, and the result is as if only the second had been made |
| RouteProperties.HandleKeys | server/routes/complaints.js:8-99 | no request removes a complaint; only a successful create adds one, under its fresh id |
| RouteProperties.HandlePreservesValid | server/routes/complaints.js:8-99 | a request on a collection of valid complaints leaves only valid complaints |
| RouteProperties.HandleKeepsOrigin | server/routes/complaints.js:8-99 | no request changes a stored complaint's title, description, category, owner or creation time |
| RouteProperties.HandleStatusNeedsAdmin | server/routes/complaints.js:53-67 | a complaint's status changes only through an admin's status update of that complaint |
| RouteProperties.HandleFeedbackNeedsOwner | server/routes/complaints.js:79-94 | a complaint's feedback changes only through its owner's submission while it is Resolved |
| RouteProperties.RunKeys | server/routes/complaints.js:8-99 | over any sequence of requests the key set only grows, and only by ids that create requests asked for |
| RouteProperties.RunCount | server/routes/complaints.js:8-99 | over any sequence of requests the number of complaints grows by at most the number of created ids |
| RouteProperties.RunPreservesValid | server/routes/complaints.js:8-99 | every complaint stays schema-valid over any sequence of requests |
| RouteProperties.RunKeepsOrigin | server/routes/complaints.js:8-99 | over any sequence of requests a stored complaint keeps its title, description, category, owner and creation time |
| RouteProperties.RunStatusNeedsAdmin | server/routes/complaints.js:59-64 | with no admin among the callers, no stored complaint's status changes |
| RouteProperties.RunFeedbackNeedsOwner | server/routes/complaints.js:85-93 | requests from others never change the feedback on a user's complaints |
| RouteProperties.PotholeLifecycle | server/routes/complaints.js:31-99 | create gives 201 and Pending, an admin's update to Resolved gives 200, and the owner's rating 5 then gives 200 with the feedback attached |
| RouteProperties.FeedbackSurvivesReopen | server/routes/complaints.js:50-99 | after feedback, an admin can set the status back to Pending and the feedback remains |

## Left out

- HTTP and Express plumbing is left out: routing, JSON bodies, and the `console.log(req)` at server/routes/complaints.js:76. Each handler is modelled by its inputs, its code, its body and its effect on the collection.
- The authentication middleware (`server/middleware/auth.js`) is not part of this model. The caller's id and role are trusted inputs, and requests it rejects never reach a handler.
- `populate('user', 'name email')` in the admin listing joins a user collection that is not part of this model. The listing returns owner ids only.
- Ids are abstract naturals. `ComplaintStore` generates them with a counter in place of ObjectId generation. A malformed id in the URL makes `findById` throw a cast error, which would be answered 500. That case is not modelled.
- The 500 answers caused by database failures are not modelled. Only validation failures and an insert under a taken id are.
- Mongoose casting of body values is not modelled, for example a numeric title cast to a string or "5" cast to 5. Text fields are strings or absent, and the rating is an integer or absent.
- Non-integer ratings such as 4.5 are not modelled, because they involve floating point. The schema itself would accept them within [1, 5].
- A status update whose body has no status is not modelled. Its effect depends on how Mongoose unsets a path and re-applies defaults. The modelled status input is always a string.
- The model shares no state between requests: each request is one atomic step. Concurrent requests, and the lost update between overlapping read-modify-write handlers, are left out.
- `Date.now()` is the `now` parameter of each request.
- The React pages and components (dashboards, forms, navigation) are presentation and are left out.
