/**
 * The feedback endpoints: the type options and the priority each type
 * defaults to, creation with its reference and ownership checks, the user's
 * list, read and update, and the administrator's list, update and resolve.
 */
module FeedbackEndpoints {
  import opened Wrappers
  import opened Query
  import opened Http
  import opened FeedbackStore
  import Scooters
  import Rentals

  /** One entry of the `/types` response; the free-text description is left out. */
  datatype FeedbackTypeOption = FeedbackTypeOption(
    value: string,
    labelText: string,
    priorityDefault: string)

  /** The five entries of the `/types` response, in order. */
  function TypeOptions(): (r: seq<FeedbackTypeOption>)
    ensures |r| == 5
    ensures forall k :: 0 <= k < |r| ==> IsPriority(r[k].priorityDefault)
  {
    [ FeedbackTypeOption(ScooterDamage, "Scooter Damage", High),
      FeedbackTypeOption(PaymentIssue, "Payment Issue", High),
      FeedbackTypeOption(AppIssue, "App Issue", Medium),
      FeedbackTypeOption(RentalIssue, "Rental Issue", Medium),
      FeedbackTypeOption(Other, "Other Issues", Low) ]
  }

  /** The priority `create_feedback` gives a type when the body has none of the three. */
  function DefaultPriority(feedbackType: string): (p: string)
    ensures IsPriority(p)
    ensures p == High <==> feedbackType == ScooterDamage || feedbackType == PaymentIssue
    ensures p == Medium <==> feedbackType == AppIssue || feedbackType == RentalIssue
  {
    if feedbackType == ScooterDamage || feedbackType == PaymentIssue then High
    else if feedbackType == AppIssue || feedbackType == RentalIssue then Medium
    else Low
  }

  /** The priority the body ends up with: its own when it is one of the three, else the type's. */
  function EffectivePriority(input: FeedbackCreate): (p: string)
    ensures IsPriority(p)
    ensures input.priority.Some? && IsPriority(input.priority.value) ==> p == input.priority.value
    ensures !(input.priority.Some? && IsPriority(input.priority.value)) ==> p == DefaultPriority(input.feedbackType)
  {
    if input.priority.Some? && IsPriority(input.priority.value) then input.priority.value
    else DefaultPriority(input.feedbackType)
  }

  /** The `/types` table and the defaulting rule agree on every type, and list each type once. */
  lemma OptionsMatchDefaults()
    ensures forall k :: 0 <= k < |TypeOptions()| ==>
      DefaultPriority(TypeOptions()[k].value) == TypeOptions()[k].priorityDefault
    ensures forall i, j :: 0 <= i < j < |TypeOptions()| ==> TypeOptions()[i].value != TypeOptions()[j].value
  {
    var opts := TypeOptions();
    assert opts[0].value == ScooterDamage && opts[1].value == PaymentIssue && opts[2].value == AppIssue;
    assert opts[3].value == RentalIssue && opts[4].value == Other;
  }

  /** A type outside the table gets the same priority as `other`. */
  lemma UnknownTypeIsLow(feedbackType: string)
    requires forall k :: 0 <= k < |TypeOptions()| ==> TypeOptions()[k].value != feedbackType
    ensures DefaultPriority(feedbackType) == Low == DefaultPriority(Other)
  {
    var opts := TypeOptions();
    assert opts[0].value == ScooterDamage && opts[1].value == PaymentIssue && opts[2].value == AppIssue;
    assert opts[3].value == RentalIssue;
  }

  function StatusOf(f: Feedback): string { f.status }
  function PriorityOf(f: Feedback): string { f.priority }

  /**
   * `if value:` then keep the rows whose `field` equals it: an unset or empty
   * filter keeps everything. The status and priority filters are this one.
   */
  function FieldFilter(fs: seq<Feedback>, field: Feedback -> string, value: Option<string>): (r: seq<Feedback>)
    ensures value.None? || value.value == "" ==> r == fs
    ensures value.Some? && value.value != "" ==>
      (forall k :: 0 <= k < |r| ==> r[k] in fs && field(r[k]) == value.value)
      && (forall j :: 0 <= j < |fs| && field(fs[j]) == value.value ==> fs[j] in r)
  {
    if value.Some? && value.value != "" then Filter(fs, (f: Feedback) => field(f) == value.value)
    else fs
  }

  /** `read_feedbacks`: the caller's window, narrowed to a status when one is given. */
  function ReadFeedbacks(store: FeedbackStore, u: nat, skip: nat, limit: nat, status: Option<string>): (r: seq<Feedback>)
    reads store
    ensures |r| <= limit
    ensures forall k :: 0 <= k < |r| ==> r[k] in store.feedbacks && r[k].userId == u
    ensures status.Some? && status.value != "" ==> forall k :: 0 <= k < |r| ==> r[k].status == status.value
    ensures forall j :: 0 <= j < |store.GetByUser(u, skip, limit)| ==>
      var f := store.GetByUser(u, skip, limit)[j];
      (status.None? || status.value == "" || f.status == status.value) ==> f in r
  {
    FieldFilter(store.GetByUser(u, skip, limit), StatusOf, status)
  }

  /**
   * `read_all_feedbacks` (without the joined names): a window of the whole
   * table, narrowed to a priority and then to a status when given.
   */
  function ReadAllFeedbacks(store: FeedbackStore, skip: nat, limit: nat,
                            priority: Option<string>, status: Option<string>): (r: seq<Feedback>)
    reads store
    ensures |r| <= limit
    ensures forall k :: 0 <= k < |r| ==> r[k] in store.feedbacks
    ensures priority.Some? && priority.value != "" ==> forall k :: 0 <= k < |r| ==> r[k].priority == priority.value
    ensures status.Some? && status.value != "" ==> forall k :: 0 <= k < |r| ==> r[k].status == status.value
    ensures forall j :: 0 <= j < |store.GetMulti(skip, limit)| ==>
      var f := store.GetMulti(skip, limit)[j];
      ((priority.None? || priority.value == "" || f.priority == priority.value)
       && (status.None? || status.value == "" || f.status == status.value)) ==> f in r
  {
    FieldFilter(FieldFilter(store.GetMulti(skip, limit), PriorityOf, priority), StatusOf, status)
  }

  /** `read_feedback`: the caller's own feedback, or 404. */
  function ReadFeedback(store: FeedbackStore, id: nat, u: nat): (r: Result<Feedback, ApiError>)
    reads store
    ensures r.Err? <==> forall j :: 0 <= j < |store.feedbacks| ==>
      !(store.feedbacks[j].id == id && store.feedbacks[j].userId == u)
    ensures r.Err? ==> r.error == NotFound
    ensures r.Ok? ==> r.value in store.feedbacks && r.value.id == id && r.value.userId == u
  {
    match store.GetByIdAndUser(id, u)
    case None => Err(NotFound)
    case Some(f) => Ok(f)
  }

  /** The part of a `FeedbackUpdate` a user may apply: type and detail, when set. */
  function UserPatch(p: FeedbackPatch): (q: FeedbackPatch)
    ensures q.feedbackType == p.feedbackType && q.feedbackDetail == p.feedbackDetail
    ensures q.priority.None? && q.status.None? && q.resolutionNotes.None?
  {
    FeedbackPatch(p.feedbackType, p.feedbackDetail, None, None, None)
  }

  /** A user update touches nothing but the type and the detail. */
  lemma UserUpdateKeepsTriage(f: Feedback, p: FeedbackPatch)
    ensures var g := ApplyPatch(f, UserPatch(p));
      g.priority == f.priority && g.status == f.status && g.resolvedAt == f.resolvedAt
      && g.handledBy == f.handledBy && g.resolutionNotes == f.resolutionNotes
      && g.userId == f.userId && g.id == f.id
  {
  }

  /**
   * `create_feedback`: defaults the priority, checks that a referenced scooter
   * exists and that a referenced rental exists and is the caller's (an id of
   * 0 is not checked), then creates the feedback; on an error nothing is
   * created.
   */
  method CreateFeedback(store: FeedbackStore, scooters: Scooters.ScooterStore, rentals: Rentals.RentalStore,
                        input: FeedbackCreate, currentUser: nat, now: int)
    returns (r: Result<Feedback, ApiError>)
    requires store.Valid()
    modifies store
    ensures store.Valid()
    ensures var scooterMissing := input.scooterId.Some? && input.scooterId.value != 0
                                  && scooters.Get(input.scooterId.value).None?;
            var rental := if input.rentalId.Some? && input.rentalId.value != 0
                          then Some(rentals.GetById(input.rentalId.value)) else None;
      (scooterMissing ==> r == Err(NotFound))
      && (!scooterMissing && rental.Some? && rental.value.None? ==> r == Err(NotFound))
      && (!scooterMissing && rental.Some? && rental.value.Some? && rental.value.value.userId != currentUser
          ==> r == Err(Forbidden))
      && (r.Ok? <==> !scooterMissing && (rental.None? || (rental.value.Some? && rental.value.value.userId == currentUser)))
    ensures r.Err? ==> store.feedbacks == old(store.feedbacks) && store.nextId == old(store.nextId)
    ensures r.Ok? ==>
      r.value == NewFeedback(old(store.nextId), input.(priority := Some(EffectivePriority(input))), currentUser, now)
      && store.feedbacks == old(store.feedbacks) + [r.value]
    ensures r.Ok? ==> IsPriority(r.value.priority) && (r.value.status == InProgress <==> r.value.priority == High)
  {
    var priority := EffectivePriority(input);
    if input.scooterId.Some? && input.scooterId.value != 0 {
      if scooters.Get(input.scooterId.value).None? {
        return Err(NotFound);
      }
    }
    if input.rentalId.Some? && input.rentalId.value != 0 {
      var rental := rentals.GetById(input.rentalId.value);
      if rental.None? {
        return Err(NotFound);
      }
      if rental.value.userId != currentUser {
        return Err(Forbidden);
      }
    }
    var f := store.CreateWithUser(input.(priority := Some(priority)), currentUser, now);
    return Ok(f);
  }

  /** `update_feedback`: the caller's own feedback gets the type and detail the body sets, or 404. */
  method UpdateFeedback(store: FeedbackStore, id: nat, p: FeedbackPatch, currentUser: nat)
    returns (r: Result<Feedback, ApiError>)
    requires store.Valid()
    modifies store
    ensures store.Valid() && store.nextId == old(store.nextId)
    ensures r.Err? <==> old(store.GetByIdAndUser(id, currentUser)).None?
    ensures r.Err? ==> r.error == NotFound && store.feedbacks == old(store.feedbacks)
    ensures r.Ok? ==>
      var f := old(store.GetByIdAndUser(id, currentUser)).value;
      r.value == ApplyPatch(f, UserPatch(p)) && store.feedbacks == ReplaceById(old(store.feedbacks), id, r.value)
  {
    var found := store.GetByIdAndUser(id, currentUser);
    if found.None? {
      return Err(NotFound);
    }
    var updated := store.Update(found.value, UserPatch(p));
    return Ok(updated);
  }

  /**
   * `admin_update_feedback`: any feedback gets every field the body sets; a
   * body that sets the status to `resolved` also stamps the resolution time
   * and the caller as handler.
   */
  method AdminUpdateFeedback(store: FeedbackStore, id: nat, p: FeedbackPatch, currentUser: nat, now: int)
    returns (r: Result<Feedback, ApiError>)
    requires store.Valid()
    modifies store
    ensures store.Valid() && store.nextId == old(store.nextId)
    ensures r.Err? <==> old(store.Get(id)).None?
    ensures r.Err? ==> r.error == NotFound && store.feedbacks == old(store.feedbacks)
    ensures r.Ok? ==>
      var f := old(store.Get(id)).value;
      var g := ApplyPatch(f, p);
      r.value == (if p.status == Some(Resolved) then g.(resolvedAt := Some(now), handledBy := Some(currentUser)) else g)
      && store.feedbacks == ReplaceById(old(store.feedbacks), id, r.value)
    ensures r.Ok? && p.status == Some(Resolved) ==>
      r.value.status == Resolved && r.value.resolvedAt == Some(now) && r.value.handledBy == Some(currentUser)
  {
    var found := store.Get(id);
    if found.None? {
      return Err(NotFound);
    }
    ghost var rows0 := store.feedbacks;
    var f := store.Update(found.value, p);
    if p.status == Some(Resolved) {
      var g := f.(resolvedAt := Some(now), handledBy := Some(currentUser));
      store.Replace(f, g);
      ReplaceTwice(rows0, id, f, g);
      f := g;
    }
    return Ok(f);
  }

  /**
   * `resolve_feedback`: any feedback becomes `resolved` at `now`, handled by
   * the caller, with the given notes.
   */
  method ResolveFeedback(store: FeedbackStore, id: nat, notes: string, currentUser: nat, now: int)
    returns (r: Result<Feedback, ApiError>)
    requires store.Valid()
    modifies store
    ensures store.Valid() && store.nextId == old(store.nextId)
    ensures r.Err? <==> old(store.Get(id)).None?
    ensures r.Err? ==> r.error == NotFound && store.feedbacks == old(store.feedbacks)
    ensures r.Ok? ==>
      var f := old(store.Get(id)).value;
      r.value == f.(status := Resolved, resolvedAt := Some(now), handledBy := Some(currentUser),
                    resolutionNotes := Some(notes))
      && store.feedbacks == ReplaceById(old(store.feedbacks), id, r.value)
  {
    var found := store.Get(id);
    if found.None? {
      return Err(NotFound);
    }
    ghost var rows0 := store.feedbacks;
    var f := store.UpdateStatus(found.value, Resolved, Some(currentUser), now);
    var g := store.AddResolutionNotes(f, notes, currentUser);
    ReplaceTwice(rows0, id, f, g);
    f := g;
    return Ok(f);
  }
}
