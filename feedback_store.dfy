/**
 * The `feedbacks` table and its CRUD layer: creation, where high priority
 * starts the feedback in progress; the status setter, which stamps the
 * resolution time and the handler; resolution notes; and the filtered
 * queries. Priority, status and type are free string columns whose usual
 * values are the enum constants below.
 */
module FeedbackStore {
  import opened Wrappers
  import opened Query

  const Low: string := "low"
  const Medium: string := "medium"
  const High: string := "high"

  const Pending: string := "pending"
  const InProgress: string := "in_progress"
  const Resolved: string := "resolved"
  const Closed: string := "closed"

  const ScooterDamage: string := "scooter_damage"
  const PaymentIssue: string := "payment_issue"
  const AppIssue: string := "app_issue"
  const RentalIssue: string := "rental_issue"
  const Other: string := "other"

  /** One of the three `FeedbackPriority` values. */
  predicate IsPriority(p: string) {
    p == High || p == Medium || p == Low
  }

  /** A row of `feedbacks`; the nullable columns are options. */
  datatype Feedback = Feedback(
    id: nat,
    userId: nat,
    scooterId: Option<nat>,
    rentalId: Option<nat>,
    feedbackType: string,
    feedbackDetail: Option<string>,
    priority: string,
    status: string,
    createdAt: int,
    resolvedAt: Option<int>,
    handledBy: Option<nat>,
    resolutionNotes: Option<string>)

  /** A `FeedbackCreate` body; an unset priority takes the column default. */
  datatype FeedbackCreate = FeedbackCreate(
    feedbackType: string,
    feedbackDetail: Option<string>,
    scooterId: Option<nat>,
    rentalId: Option<nat>,
    priority: Option<string>)

  /** A `FeedbackUpdate` body: `None` is a field the request did not set. */
  datatype FeedbackPatch = FeedbackPatch(
    feedbackType: Option<string>,
    feedbackDetail: Option<string>,
    priority: Option<string>,
    status: Option<string>,
    resolutionNotes: Option<string>)

  function FeedbackId(f: Feedback): nat { f.id }

  /**
   * The row `create_with_user` inserts: the body's fields, the caller's user,
   * the column defaults, and `in_progress` instead of `pending` when the
   * priority is high.
   */
  function NewFeedback(id: nat, input: FeedbackCreate, userId: nat, now: int): (f: Feedback)
    ensures f.id == id && f.userId == userId && f.createdAt == now
    ensures f.feedbackType == input.feedbackType && f.feedbackDetail == input.feedbackDetail
    ensures f.scooterId == input.scooterId && f.rentalId == input.rentalId
    ensures f.priority == input.priority.GetOr(Medium)
    ensures f.status == InProgress <==> f.priority == High
    ensures f.status == Pending <==> f.priority != High
    ensures f.resolvedAt.None? && f.handledBy.None? && f.resolutionNotes.None?
  {
    var priority := input.priority.GetOr(Medium);
    Feedback(id, userId, input.scooterId, input.rentalId, input.feedbackType, input.feedbackDetail,
             priority, if priority == High then InProgress else Pending,
             now, None, None, None)
  }

  /**
   * `update_status`: the new status; the resolution time when it is
   * `resolved`; the handler when one is given and is not 0 (Python
   * truthiness).
   */
  function StatusUpdated(f: Feedback, status: string, handlerId: Option<nat>, now: int): (g: Feedback)
    ensures g.status == status
    ensures g.resolvedAt == (if status == Resolved then Some(now) else f.resolvedAt)
    ensures g.handledBy == (if handlerId.Some? && handlerId.value != 0 then handlerId else f.handledBy)
    ensures g.(status := f.status, resolvedAt := f.resolvedAt, handledBy := f.handledBy) == f
  {
    var g := f.(status := status);
    var g := if status == Resolved then g.(resolvedAt := Some(now)) else g;
    if handlerId.Some? && handlerId.value != 0 then g.(handledBy := handlerId) else g
  }

  /** `add_resolution_notes`: the notes and the handler, whatever the handler id. */
  function WithNotes(f: Feedback, notes: string, handlerId: nat): (g: Feedback)
    ensures g.resolutionNotes == Some(notes) && g.handledBy == Some(handlerId)
    ensures g.(resolutionNotes := f.resolutionNotes, handledBy := f.handledBy) == f
  {
    f.(resolutionNotes := Some(notes), handledBy := Some(handlerId))
  }

  /** The partial update: each field the patch sets replaces the column. */
  function ApplyPatch(f: Feedback, p: FeedbackPatch): (g: Feedback)
    ensures g.feedbackType == p.feedbackType.GetOr(f.feedbackType)
    ensures g.feedbackDetail == (if p.feedbackDetail.Some? then p.feedbackDetail else f.feedbackDetail)
    ensures g.priority == p.priority.GetOr(f.priority) && g.status == p.status.GetOr(f.status)
    ensures g.resolutionNotes == (if p.resolutionNotes.Some? then p.resolutionNotes else f.resolutionNotes)
    ensures g.(feedbackType := f.feedbackType, feedbackDetail := f.feedbackDetail, priority := f.priority,
               status := f.status, resolutionNotes := f.resolutionNotes) == f
    ensures p == FeedbackPatch(None, None, None, None, None) ==> g == f
  {
    f.(feedbackType := p.feedbackType.GetOr(f.feedbackType),
       feedbackDetail := if p.feedbackDetail.Some? then p.feedbackDetail else f.feedbackDetail,
       priority := p.priority.GetOr(f.priority),
       status := p.status.GetOr(f.status),
       resolutionNotes := if p.resolutionNotes.Some? then p.resolutionNotes else f.resolutionNotes)
  }

  /** Setting a status twice at the same moment is the same as setting it once. */
  lemma StatusUpdateIdempotent(f: Feedback, status: string, handlerId: Option<nat>, now: int)
    ensures StatusUpdated(StatusUpdated(f, status, handlerId, now), status, handlerId, now)
         == StatusUpdated(f, status, handlerId, now)
  {
  }

  function ReplaceById(fs: seq<Feedback>, id: nat, row: Feedback): (r: seq<Feedback>)
    ensures |r| == |fs|
    ensures forall j :: 0 <= j < |fs| ==> r[j] == (if fs[j].id == id then row else fs[j])
  {
    seq(|fs|, j requires 0 <= j < |fs| => if fs[j].id == id then row else fs[j])
  }

  /** A second write to the same id overrides the first. */
  lemma ReplaceTwice(fs: seq<Feedback>, id: nat, a: Feedback, b: Feedback)
    requires a.id == id
    ensures ReplaceById(ReplaceById(fs, id, a), id, b) == ReplaceById(fs, id, b)
  {
    var once := ReplaceById(fs, id, a);
    assert forall j :: 0 <= j < |fs| ==> (once[j].id == id <==> fs[j].id == id);
  }

  class FeedbackStore {
    var feedbacks: seq<Feedback>
    var nextId: nat

    ghost predicate Valid()
      reads this
    {
      DistinctBy(feedbacks, FeedbackId) && forall j :: 0 <= j < |feedbacks| ==> feedbacks[j].id < nextId
    }

    constructor ()
      ensures Valid() && feedbacks == [] && nextId == 1
    {
      feedbacks := [];
      nextId := 1;
    }

    /** `get` by primary key. */
    function Get(id: nat): (r: Option<Feedback>)
      reads this
      ensures r.None? <==> forall j :: 0 <= j < |feedbacks| ==> feedbacks[j].id != id
      ensures r.Some? ==> r.value in feedbacks && r.value.id == id
    {
      First(feedbacks, (f: Feedback) => f.id == id)
    }

    /** `get_multi`: a window of the whole table. */
    function GetMulti(skip: nat, limit: nat): (r: seq<Feedback>)
      reads this
      ensures |r| <= limit
      ensures forall k :: 0 <= k < |r| ==> skip + k < |feedbacks| && r[k] == feedbacks[skip + k]
      ensures skip + limit <= |feedbacks| ==> |r| == limit
      ensures IsWindow(r, feedbacks, skip, limit)
    {
      Window(feedbacks, skip, limit)
    }

    /** `get_by_user`: a window of the rows of user `u`. */
    function GetByUser(u: nat, skip: nat, limit: nat): (r: seq<Feedback>)
      reads this
      ensures |r| <= limit
      ensures forall k :: 0 <= k < |r| ==> r[k] in feedbacks && r[k].userId == u
      ensures skip == 0 && |Filter(feedbacks, (f: Feedback) => f.userId == u)| <= limit ==>
        forall j :: 0 <= j < |feedbacks| && feedbacks[j].userId == u ==> feedbacks[j] in r
      ensures IsWindow(r, Filter(feedbacks, (f: Feedback) => f.userId == u), skip, limit)
    {
      Window(Filter(feedbacks, (f: Feedback) => f.userId == u), skip, limit)
    }

    /** `get_by_id_and_user`: found only when the row belongs to `u`. */
    function GetByIdAndUser(id: nat, u: nat): (r: Option<Feedback>)
      reads this
      ensures r.None? <==> forall j :: 0 <= j < |feedbacks| ==> !(feedbacks[j].id == id && feedbacks[j].userId == u)
      ensures r.Some? ==> r.value in feedbacks && r.value.id == id && r.value.userId == u
    {
      First(feedbacks, (f: Feedback) => f.id == id && f.userId == u)
    }

    /** `get_high_priority`: a window of the rows whose priority is `high`. */
    function GetHighPriority(skip: nat, limit: nat): (r: seq<Feedback>)
      reads this
      ensures |r| <= limit
      ensures forall k :: 0 <= k < |r| ==> r[k] in feedbacks && r[k].priority == High
      ensures skip == 0 && |Filter(feedbacks, (f: Feedback) => f.priority == High)| <= limit ==>
        forall j :: 0 <= j < |feedbacks| && feedbacks[j].priority == High ==> feedbacks[j] in r
      ensures IsWindow(r, Filter(feedbacks, (f: Feedback) => f.priority == High), skip, limit)
    {
      Window(Filter(feedbacks, (f: Feedback) => f.priority == High), skip, limit)
    }

    /** `get_by_status`: a window of the rows with the given status. */
    function GetByStatus(status: string, skip: nat, limit: nat): (r: seq<Feedback>)
      reads this
      ensures |r| <= limit
      ensures forall k :: 0 <= k < |r| ==> r[k] in feedbacks && r[k].status == status
      ensures skip == 0 && |Filter(feedbacks, (f: Feedback) => f.status == status)| <= limit ==>
        forall j :: 0 <= j < |feedbacks| && feedbacks[j].status == status ==> feedbacks[j] in r
      ensures IsWindow(r, Filter(feedbacks, (f: Feedback) => f.status == status), skip, limit)
    {
      Window(Filter(feedbacks, (f: Feedback) => f.status == status), skip, limit)
    }

    /** `create_with_user`: appends the new row with the next id. */
    method CreateWithUser(input: FeedbackCreate, userId: nat, now: int) returns (f: Feedback)
      requires Valid()
      modifies this
      ensures Valid()
      ensures f == NewFeedback(old(nextId), input, userId, now)
      ensures feedbacks == old(feedbacks) + [f] && nextId == old(nextId) + 1
      ensures Get(f.id) == Some(f)
    {
      f := NewFeedback(nextId, input, userId, now);
      feedbacks := feedbacks + [f];
      nextId := nextId + 1;
      FirstIs(feedbacks, (x: Feedback) => x.id == f.id, |feedbacks| - 1);
    }

    /** `update` from the generic CRUD layer: the fields the patch sets. */
    method Update(f: Feedback, p: FeedbackPatch) returns (updated: Feedback)
      requires Valid() && f in feedbacks
      modifies this
      ensures Valid() && nextId == old(nextId)
      ensures updated == ApplyPatch(f, p)
      ensures feedbacks == ReplaceById(old(feedbacks), f.id, updated)
      ensures Get(f.id) == Some(updated)
    {
      updated := ApplyPatch(f, p);
      Replace(f, updated);
    }

    /** `update_status`. */
    method UpdateStatus(f: Feedback, status: string, handlerId: Option<nat>, now: int) returns (updated: Feedback)
      requires Valid() && f in feedbacks
      modifies this
      ensures Valid() && nextId == old(nextId)
      ensures updated == StatusUpdated(f, status, handlerId, now)
      ensures feedbacks == ReplaceById(old(feedbacks), f.id, updated)
      ensures Get(f.id) == Some(updated)
    {
      var g := f.(status := status);
      if status == Resolved {
        g := g.(resolvedAt := Some(now));
      }
      if handlerId.Some? && handlerId.value != 0 {
        g := g.(handledBy := handlerId);
      }
      updated := g;
      Replace(f, updated);
    }

    /** `add_resolution_notes`. */
    method AddResolutionNotes(f: Feedback, notes: string, handlerId: nat) returns (updated: Feedback)
      requires Valid() && f in feedbacks
      modifies this
      ensures Valid() && nextId == old(nextId)
      ensures updated == WithNotes(f, notes, handlerId)
      ensures feedbacks == ReplaceById(old(feedbacks), f.id, updated)
      ensures Get(f.id) == Some(updated)
    {
      updated := f.(resolutionNotes := Some(notes), handledBy := Some(handlerId));
      Replace(f, updated);
    }

    /** Writes `row` over the stored `f`, which it shares an id with. */
    method Replace(f: Feedback, row: Feedback)
      requires Valid() && f in feedbacks && row.id == f.id
      modifies this
      ensures Valid() && nextId == old(nextId)
      ensures feedbacks == ReplaceById(old(feedbacks), f.id, row)
      ensures Get(f.id) == Some(row)
    {
      ghost var k :| 0 <= k < |feedbacks| && feedbacks[k] == f;
      feedbacks := ReplaceById(feedbacks, f.id, row);
      FirstIs(feedbacks, (x: Feedback) => x.id == f.id, k);
    }
  }
}
