/**
 * The `Complaint` model: the feedback and complaint schemas as record
 * datatypes, the defaults filled in when a document is constructed, and the
 * schema validation that `save()` runs before a document is persisted.
 *
 * A document keeps its fields as they were assigned (a required string may be
 * missing, a status may be any string); only validation decides whether the
 * document may be stored.
 */
module ComplaintModel {
  import opened Wrappers

  /** The owner's id, as the authentication layer hands it over. */
  type UserId = string

  const CATEGORIES: set<string> := {"Infrastructure", "Public Services", "Environmental", "Other"}
  const STATUSES: set<string> := {"Pending", "In Progress", "Resolved", "Rejected"}
  const DEFAULT_STATUS: string := "Pending"
  const RESOLVED: string := "Resolved"
  const MIN_RATING: int := 1
  const MAX_RATING: int := 5

  /** The embedded feedback sub-document. */
  datatype Feedback = Feedback(rating: Option<int>, comment: Option<string>, createdAt: nat)

  /** A complaint document; times are the milliseconds `Date.now` would give. */
  datatype Complaint = Complaint(
    title: Option<string>,
    description: Option<string>,
    category: Option<string>,
    status: string,
    user: Option<UserId>,
    feedback: Option<Feedback>,
    createdAt: nat,
    updatedAt: nat)

  /** The `required` check on a String path: the value is there and is not empty. */
  predicate Present(s: Option<string>) {
    s.Some? && s.value != ""
  }

  /** Validation of the feedback schema: a rating in 1..5 and a comment, both required. */
  predicate ValidFeedback(f: Feedback) {
    && f.rating.Some? && MIN_RATING <= f.rating.value <= MAX_RATING
    && Present(f.comment)
  }

  /** Validation of the complaint schema; the feedback is optional. */
  predicate ValidComplaint(c: Complaint) {
    && Present(c.title)
    && Present(c.description)
    && Present(c.category) && c.category.value in CATEGORIES
    && c.status in STATUSES
    && c.user.Some?
    && (c.feedback.Some? ==> ValidFeedback(c.feedback.value))
  }

  /** `{ rating, comment }` cast to a feedback sub-document at time `now`. */
  function NewFeedback(rating: Option<int>, comment: Option<string>, now: nat): Feedback {
    Feedback(rating, comment, now)
  }

  /** `new Complaint({ title, description, category, user })` at time `now`. */
  function NewComplaint(title: Option<string>, description: Option<string>, category: Option<string>,
                        user: UserId, now: nat): Complaint
  {
    Complaint(title, description, category, DEFAULT_STATUS, Some(user), None, now, now)
  }

  /** What a document that passed validation is known to hold, field by field. */
  lemma ValidComplaintFields(c: Complaint)
    requires ValidComplaint(c)
    ensures c.title.Some? && c.title.value != ""
    ensures c.description.Some? && c.description.value != ""
    ensures c.category == Some("Infrastructure") || c.category == Some("Public Services")
         || c.category == Some("Environmental") || c.category == Some("Other")
    ensures c.status == "Pending" || c.status == "In Progress" || c.status == "Resolved" || c.status == "Rejected"
    ensures c.user.Some?
    ensures c.feedback.Some? ==> c.feedback.value.rating.Some? && 1 <= c.feedback.value.rating.value <= 5
    ensures c.feedback.Some? ==> c.feedback.value.comment.Some? && c.feedback.value.comment.value != ""
  {
  }

  /** A document missing a required field, or with a value outside an enum, never validates. */
  lemma InvalidComplaints(c: Complaint)
    ensures c.title.None? || c.description.None? || c.category.None? || c.user.None? ==> !ValidComplaint(c)
    ensures c.category.Some? && c.category.value !in CATEGORIES ==> !ValidComplaint(c)
    ensures c.status !in STATUSES ==> !ValidComplaint(c)
  {
  }

  /** The defaults: status Pending, no feedback, both timestamps the creation time. */
  lemma NewComplaintDefaults(title: Option<string>, description: Option<string>, category: Option<string>,
                             user: UserId, now: nat)
    ensures var c := NewComplaint(title, description, category, user, now);
      && c.status == "Pending" && c.feedback.None?
      && c.createdAt == now && c.updatedAt == now
      && c.user == Some(user)
      && c.title == title && c.description == description && c.category == category
  {
  }

  /** A freshly constructed complaint validates exactly when its three supplied fields do. */
  lemma NewComplaintValid(title: Option<string>, description: Option<string>, category: Option<string>,
                          user: UserId, now: nat)
    ensures ValidComplaint(NewComplaint(title, description, category, user, now))
        <==> Present(title) && Present(description) && category.Some? && category.value in CATEGORIES
  {
  }

  /** Fresh feedback is stamped with `now` and validates exactly when rating and comment do. */
  lemma NewFeedbackValid(rating: Option<int>, comment: Option<string>, now: nat)
    ensures NewFeedback(rating, comment, now).createdAt == now
    ensures ValidFeedback(NewFeedback(rating, comment, now))
        <==> rating.Some? && 1 <= rating.value <= 5 && comment.Some? && comment.value != ""
  {
  }
}
